/**
 * The permission model (src/utils/permissions.ts): the canonical form used
 * to compare a granted record with a requested one, and the text shown in
 * the permission prompt.
 */
module Permissions {
  import opened Interface
  import opened Text

  // ---------------------------------------------------------------------
  // Default `Array.prototype.sort` on strings: ascending by code units.
  // ---------------------------------------------------------------------

  /** Lexicographic order by character code. */
  predicate StrLe(a: string, b: string)
    decreases |a|
  {
    |a| == 0 || (|b| > 0 && (a[0] < b[0] || (a[0] == b[0] && StrLe(a[1..], b[1..]))))
  }

  lemma {:induction false} StrLeTotal(a: string, b: string)
    ensures StrLe(a, b) || StrLe(b, a)
    decreases |a|
  {
    if |a| > 0 && |b| > 0 && a[0] == b[0] {
      StrLeTotal(a[1..], b[1..]);
    }
  }

  lemma {:induction false} StrLeReflexive(a: string)
    ensures StrLe(a, a)
    decreases |a|
  {
    if |a| > 0 {
      StrLeReflexive(a[1..]);
    }
  }

  lemma {:induction false} StrLeAntisymmetric(a: string, b: string)
    requires StrLe(a, b) && StrLe(b, a)
    ensures a == b
    decreases |a|
  {
    if |a| > 0 {
      StrLeAntisymmetric(a[1..], b[1..]);
      assert a == [a[0]] + a[1..] && b == [b[0]] + b[1..];
    }
  }

  lemma {:induction false} StrLeTransitive(a: string, b: string, c: string)
    requires StrLe(a, b) && StrLe(b, c)
    ensures StrLe(a, c)
    decreases |a|
  {
    if |a| > 0 && a[0] == b[0] && b[0] == c[0] {
      StrLeTransitive(a[1..], b[1..], c[1..]);
    }
  }

  predicate Sorted(s: seq<string>) {
    forall i, j :: 0 <= i < j < |s| ==> StrLe(s[i], s[j])
  }

  /** One step of insertion sort: `x` placed before the first element it does not exceed. */
  function Insert(x: string, s: seq<string>): seq<string> {
    if |s| == 0 then [x]
    else if StrLe(x, s[0]) then [x] + s
    else [s[0]] + Insert(x, s[1..])
  }

  lemma {:induction false} InsertMultiset(x: string, s: seq<string>)
    ensures multiset(Insert(x, s)) == multiset(s) + multiset{x}
  {
    if |s| > 0 && !StrLe(x, s[0]) {
      InsertMultiset(x, s[1..]);
      assert s == [s[0]] + s[1..];
    }
  }

  lemma {:induction false} InsertSorted(x: string, s: seq<string>)
    requires Sorted(s)
    ensures Sorted(Insert(x, s))
  {
    if |s| == 0 {
    } else if StrLe(x, s[0]) {
      var r := [x] + s;
      forall a, b | 0 <= a < b < |r| ensures StrLe(r[a], r[b]) {
        if a == 0 && b > 1 { StrLeTransitive(x, s[0], s[b - 1]); }
      }
    } else {
      var rest := Insert(x, s[1..]);
      InsertSorted(x, s[1..]);
      InsertHead(x, s, rest);
    }
  }

  lemma InsertHead(x: string, s: seq<string>, rest: seq<string>)
    requires |s| > 0 && Sorted(s) && !StrLe(x, s[0]) && Sorted(rest) && rest == Insert(x, s[1..])
    ensures Sorted([s[0]] + rest)
  {
    StrLeTotal(x, s[0]);
    InsertMultiset(x, s[1..]);
    forall j | 0 <= j < |rest| ensures StrLe(s[0], rest[j]) {
      assert rest[j] in multiset(rest);
      if rest[j] != x {
        assert rest[j] in multiset(s[1..]);
        var k :| 0 <= k < |s[1..]| && s[1..][k] == rest[j];
        assert s[k + 1] == rest[j];
      }
    }
  }

  /** `[...xs].sort()`: a sorted permutation of `xs`. */
  function SortStrings(xs: seq<string>): (r: seq<string>)
    ensures multiset(r) == multiset(xs)
    ensures Sorted(r)
  {
    if |xs| == 0 then []
    else
      var rest := SortStrings(xs[1..]);
      InsertMultiset(xs[0], rest);
      InsertSorted(xs[0], rest);
      assert xs == [xs[0]] + xs[1..];
      Insert(xs[0], rest)
  }

  /** Two sorted sequences with the same elements are the same sequence. */
  lemma {:induction false} SortedUnique(a: seq<string>, b: seq<string>)
    requires Sorted(a) && Sorted(b) && multiset(a) == multiset(b)
    ensures a == b
    decreases |a|
  {
    assert |a| == |multiset(a)| == |multiset(b)| == |b|;
    if |a| > 0 {
      SortedUniqueStep(a, b);
      SortedUnique(a[1..], b[1..]);
      assert a == [a[0]] + a[1..] && b == [b[0]] + b[1..];
    }
  }

  lemma SortedUniqueStep(a: seq<string>, b: seq<string>)
    requires |a| > 0 && |b| > 0 && Sorted(a) && Sorted(b) && multiset(a) == multiset(b)
    ensures a[0] == b[0] && Sorted(a[1..]) && Sorted(b[1..]) && multiset(a[1..]) == multiset(b[1..])
  {
    SortedHeads(a, b);
    assert a == [a[0]] + a[1..] && b == [b[0]] + b[1..];
    assert multiset(a[1..]) == multiset(a) - multiset{a[0]};
    assert multiset(b[1..]) == multiset(b) - multiset{b[0]};
    SortedTail(a);
    SortedTail(b);
  }

  lemma SortedTail(a: seq<string>)
    requires |a| > 0 && Sorted(a)
    ensures Sorted(a[1..])
  {
    forall i, j | 0 <= i < j < |a[1..]| ensures StrLe(a[1..][i], a[1..][j]) {
      assert a[1..][i] == a[i + 1] && a[1..][j] == a[j + 1];
    }
  }

  /** The least element of a sorted sequence comes first, so two sorted permutations agree on it. */
  lemma SortedHeads(a: seq<string>, b: seq<string>)
    requires |a| > 0 && |b| > 0 && Sorted(a) && Sorted(b) && multiset(a) == multiset(b)
    ensures a[0] == b[0]
  {
    assert a[0] in multiset(b) && b[0] in multiset(a);
    SortedFirstLeast(a, b[0]);
    SortedFirstLeast(b, a[0]);
    StrLeAntisymmetric(a[0], b[0]);
  }

  lemma SortedFirstLeast(a: seq<string>, y: string)
    requires |a| > 0 && Sorted(a) && y in a
    ensures StrLe(a[0], y)
  {
    var i :| 0 <= i < |a| && a[i] == y;
    if i == 0 {
      StrLeReflexive(y);
    }
  }

  /** Sorting depends only on the elements, never on their order. */
  lemma SortIgnoresOrder(a: seq<string>, b: seq<string>)
    requires multiset(a) == multiset(b)
    ensures SortStrings(a) == SortStrings(b)
  {
    SortedUnique(SortStrings(a), SortStrings(b));
  }

  /** Sorting an already sorted sequence changes nothing. */
  lemma SortSorted(a: seq<string>)
    requires Sorted(a)
    ensures SortStrings(a) == a
  {
    SortedUnique(SortStrings(a), a);
  }

  /** A sequence with the same elements as one without repetitions has none either. */
  lemma {:induction false} DistinctPermutation(a: seq<string>, b: seq<string>)
    requires Distinct(a) && multiset(a) == multiset(b)
    ensures Distinct(b)
  {
    forall i, j | 0 <= i < j < |b| ensures b[i] != b[j] {
      if b[i] == b[j] {
        var x := b[i];
        assert b == b[..j] + b[j..];
        assert b[..j][i] == x && b[j..][0] == x;
        assert multiset(b) == multiset(b[..j]) + multiset(b[j..]);
        assert multiset(b[..j])[x] >= 1 && multiset(b[j..])[x] >= 1;
        DistinctCount(a, x);
      }
    }
  }

  lemma {:induction false} DistinctCount(a: seq<string>, x: string)
    requires Distinct(a)
    ensures multiset(a)[x] <= 1
  {
    if |a| > 0 {
      assert a == [a[0]] + a[1..];
      assert Distinct(a[1..]) by {
        forall i, j | 0 <= i < j < |a[1..]| ensures a[1..][i] != a[1..][j] {
          assert a[i + 1] != a[j + 1];
        }
      }
      DistinctCount(a[1..], x);
      if a[0] == x {
        assert x !in a[1..] by {
          forall k | 0 <= k < |a[1..]| ensures a[1..][k] != x { assert a[0] != a[k + 1]; }
        }
      }
    }
  }

  // ---------------------------------------------------------------------
  // normalizePermissions
  // ---------------------------------------------------------------------

  /** A value in canonical form: lists sorted, flags as they are. */
  function NormalValue(v: PermValue): PermValue {
    match v
    case Scoped(items) => Scoped(SortStrings(items))
    case Flag(_) => v
  }

  /** `p[k]` for a key that is present. */
  function ValueOf(p: PluginPermissions, k: string): PermValue {
    match Get(p, k)
    case Some(v) => v
    case None => Flag(false)
  }

  /** The canonical form of a record: its keys in sorted order, each with its normalized value. */
  function Normalized(p: PluginPermissions): PluginPermissions {
    var ks := SortStrings(Keys(p));
    seq(|ks|, i requires 0 <= i < |ks| => (ks[i], NormalValue(ValueOf(p, ks[i]))))
  }

  /**
   * `normalizePermissions`: copies the keys of `p` in sorted order into a
   * fresh record, sorting the copy of every list value and passing every
   * other value through.
   */
  method NormalizePermissions(p: PluginPermissions) returns (sorted: PluginPermissions)
    requires DistinctKeys(p)
    ensures sorted == Normalized(p)
    ensures forall j :: 0 <= j < |sorted| ==> sorted[j].1 == NormalValue(ValueOf(p, sorted[j].0))
  {
    var keys := SortStrings(Keys(p));
    sorted := [];
    var i := 0;
    while i < |keys|
      invariant 0 <= i <= |keys|
      invariant |sorted| == i
      invariant forall j :: 0 <= j < i ==> sorted[j] == (keys[j], NormalValue(ValueOf(p, keys[j])))
    {
      var k := keys[i];
      var val := ValueOf(p, k);
      if val.Scoped? {
        sorted := sorted + [(k, Scoped(SortStrings(val.items)))];
      } else {
        sorted := sorted + [(k, val)];
      }
      i := i + 1;
    }
    assert forall j :: 0 <= j < |sorted| ==> sorted[j] == Normalized(p)[j];
  }

  /** Normalization keeps exactly the keys it is given: it adds none and drops none. */
  lemma NormalizedKeys(p: PluginPermissions)
    ensures |Normalized(p)| == |p|
    ensures multiset(Keys(Normalized(p))) == multiset(Keys(p))
    ensures Sorted(Keys(Normalized(p)))
  {
    var ks := SortStrings(Keys(p));
    assert |multiset(ks)| == |ks| && |multiset(Keys(p))| == |Keys(p)|;
    assert Keys(Normalized(p)) == ks;
  }

  /** No absent key is filled in: an explicit `false` and an absent key normalize differently. */
  lemma ExplicitFalseIsNotAbsent()
    ensures Normalized([("net", Flag(false))]) != Normalized([])
  {
    NormalizedKeys([("net", Flag(false))]);
  }

  /** Two values are equal up to the order of their qualifiers. */
  predicate SameValue(u: PermValue, v: PermValue) {
    match u
    case Flag(b) => v == Flag(b)
    case Scoped(xs) => v.Scoped? && multiset(xs) == multiset(v.items)
  }

  /**
   * Reordering the keys of a record or the qualifiers of any of its lists
   * leaves its canonical form unchanged.
   */
  lemma NormalizedIgnoresOrder(p: PluginPermissions, q: PluginPermissions)
    requires multiset(Keys(p)) == multiset(Keys(q))
    requires forall k :: k in Keys(p) ==> SameValue(ValueOf(p, k), ValueOf(q, k))
    ensures Normalized(p) == Normalized(q)
  {
    SortIgnoresOrder(Keys(p), Keys(q));
    var ks := SortStrings(Keys(p));
    forall i | 0 <= i < |ks| ensures NormalValue(ValueOf(p, ks[i])) == NormalValue(ValueOf(q, ks[i])) {
      var k := ks[i];
      assert k in multiset(Keys(p));
      SameValueNormal(ValueOf(p, k), ValueOf(q, k));
    }
  }

  lemma SameValueNormal(u: PermValue, v: PermValue)
    requires SameValue(u, v)
    ensures NormalValue(u) == NormalValue(v)
  {
    if u.Scoped? {
      SortIgnoresOrder(u.items, v.items);
    }
  }

  /** Normalizing a canonical form changes nothing. */
  lemma NormalizeIdempotent(p: PluginPermissions)
    requires DistinctKeys(p)
    ensures Normalized(Normalized(p)) == Normalized(p)
  {
    var n := Normalized(p);
    var ks := SortStrings(Keys(p));
    assert Keys(n) == ks;
    SortSorted(ks);
    DistinctPermutation(Keys(p), ks);
    forall i | 0 <= i < |n| ensures NormalValue(ValueOf(n, ks[i])) == n[i].1 {
      GetAt(n, i);
      match ValueOf(p, ks[i])
      case Scoped(items) => SortSorted(SortStrings(items));
      case Flag(_) =>
    }
  }

  // ---------------------------------------------------------------------
  // formatPermissions
  // ---------------------------------------------------------------------

  const NoPermissionsText := "No special permissions requested."

  /** A line of the prompt: a bullet, a space and the caption. */
  function Bullet(caption: string): string {
    "• " + caption
  }

  /** `xs.map((x) => "  - " + x).join("\n")`. */
  function ItemLines(xs: seq<string>): string {
    Join(seq(|xs|, i requires 0 <= i < |xs| => "  - " + xs[i]), '\n')
  }

  /** `Array.isArray(p[key]) && p[key].length > 0`. */
  predicate HasItems(p: PluginPermissions, key: string) {
    Get(p, key).Some? && Get(p, key).value.Scoped? && |Get(p, key).value.items| > 0
  }

  /** `p[key] === true`. */
  predicate Granted(p: PluginPermissions, key: string) {
    Get(p, key) == Some(Flag(true))
  }

  /** The section for a list-valued permission: a heading and one line per qualifier, when the list is non-empty. */
  function ListSection(p: PluginPermissions, key: string, caption: string): seq<string> {
    if HasItems(p, key) then [Bullet(caption) + "\n" + ItemLines(Get(p, key).value.items)] else []
  }

  /** The line for a permission granted in full, when its value is `true`. */
  function FlagSection(p: PluginPermissions, key: string, caption: string): seq<string> {
    if Granted(p, key) then [Bullet(caption)] else []
  }

  /**
   * Everything the prompt lists, in order: the list sections for net, read,
   * write, run and env, then the full grants of net, read, write, run, env,
   * ffi and hrtime.
   */
  function Sections(p: PluginPermissions): seq<string> {
    ListSection(p, "net", "Network Access:")
    + ListSection(p, "read", "Read Files:")
    + ListSection(p, "write", "Write Files:")
    + ListSection(p, "run", "Run Subprocesses:")
    + ListSection(p, "env", "Environment Variables:")
    + FlagSection(p, "net", "Full Network Access")
    + FlagSection(p, "read", "Read All Files")
    + FlagSection(p, "write", "Write All Files")
    + FlagSection(p, "run", "Run All Commands")
    + FlagSection(p, "env", "Access All Env Vars")
    + FlagSection(p, "ffi", "FFI (Foreign Function Interface)")
    + FlagSection(p, "hrtime", "High Resolution Time")
  }

  /** Some list among net..env is non-empty, or some permission is `true`. */
  predicate ListsSomething(p: PluginPermissions) {
    || HasItems(p, "net") || HasItems(p, "read") || HasItems(p, "write") || HasItems(p, "run") || HasItems(p, "env")
    || Granted(p, "net") || Granted(p, "read") || Granted(p, "write") || Granted(p, "run") || Granted(p, "env")
    || Granted(p, "ffi") || Granted(p, "hrtime")
  }

  /** Sections separated by blank lines. */
  function JoinSections(ss: seq<string>): string {
    if |ss| == 0 then ""
    else if |ss| == 1 then ss[0]
    else ss[0] + "\n\n" + JoinSections(ss[1..])
  }

  /** Every section starts with a bullet. */
  predicate Bulleted(ss: seq<string>) {
    forall k :: 0 <= k < |ss| ==> |ss[k]| > 0 && ss[k][0] == '•'
  }

  lemma BulletedConcat(a: seq<string>, b: seq<string>)
    requires Bulleted(a) && Bulleted(b)
    ensures Bulleted(a + b)
  {
    forall k | 0 <= k < |a + b| ensures |(a + b)[k]| > 0 && (a + b)[k][0] == '•' {
      if k >= |a| { assert (a + b)[k] == b[k - |a|]; }
    }
  }

  lemma ListSectionBulleted(p: PluginPermissions, key: string, caption: string)
    ensures Bulleted(ListSection(p, key, caption))
  {
    if HasItems(p, key) {
      var line := Bullet(caption) + "\n" + ItemLines(Get(p, key).value.items);
      assert line[0] == Bullet(caption)[0];
    }
  }

  lemma FlagSectionBulleted(p: PluginPermissions, key: string, caption: string)
    ensures Bulleted(FlagSection(p, key, caption))
  {
  }

  lemma SectionsBulleted(p: PluginPermissions)
    ensures Bulleted(Sections(p))
  {
    var s0 := ListSection(p, "net", "Network Access:");
    var s1 := ListSection(p, "read", "Read Files:");
    var s2 := ListSection(p, "write", "Write Files:");
    var s3 := ListSection(p, "run", "Run Subprocesses:");
    var s4 := ListSection(p, "env", "Environment Variables:");
    var s5 := FlagSection(p, "net", "Full Network Access");
    var s6 := FlagSection(p, "read", "Read All Files");
    var s7 := FlagSection(p, "write", "Write All Files");
    var s8 := FlagSection(p, "run", "Run All Commands");
    var s9 := FlagSection(p, "env", "Access All Env Vars");
    var s10 := FlagSection(p, "ffi", "FFI (Foreign Function Interface)");
    var s11 := FlagSection(p, "hrtime", "High Resolution Time");
    ListSectionBulleted(p, "net", "Network Access:");
    ListSectionBulleted(p, "read", "Read Files:");
    ListSectionBulleted(p, "write", "Write Files:");
    ListSectionBulleted(p, "run", "Run Subprocesses:");
    ListSectionBulleted(p, "env", "Environment Variables:");
    FlagSectionBulleted(p, "net", "Full Network Access");
    FlagSectionBulleted(p, "read", "Read All Files");
    FlagSectionBulleted(p, "write", "Write All Files");
    FlagSectionBulleted(p, "run", "Run All Commands");
    FlagSectionBulleted(p, "env", "Access All Env Vars");
    FlagSectionBulleted(p, "ffi", "FFI (Foreign Function Interface)");
    FlagSectionBulleted(p, "hrtime", "High Resolution Time");
    BulletedConcat(s0, s1);
    BulletedConcat(s0 + s1, s2);
    BulletedConcat(s0 + s1 + s2, s3);
    BulletedConcat(s0 + s1 + s2 + s3, s4);
    BulletedConcat(s0 + s1 + s2 + s3 + s4, s5);
    BulletedConcat(s0 + s1 + s2 + s3 + s4 + s5, s6);
    BulletedConcat(s0 + s1 + s2 + s3 + s4 + s5 + s6, s7);
    BulletedConcat(s0 + s1 + s2 + s3 + s4 + s5 + s6 + s7, s8);
    BulletedConcat(s0 + s1 + s2 + s3 + s4 + s5 + s6 + s7 + s8, s9);
    BulletedConcat(s0 + s1 + s2 + s3 + s4 + s5 + s6 + s7 + s8 + s9, s10);
    BulletedConcat(s0 + s1 + s2 + s3 + s4 + s5 + s6 + s7 + s8 + s9 + s10, s11);
  }

  /** Each section followed by a blank line, as the source accumulates them. */
  function Accumulated(ss: seq<string>): string {
    if |ss| == 0 then "" else ss[0] + "\n\n" + Accumulated(ss[1..])
  }

  lemma {:induction false} AccumulatedIsJoinedPlusBlank(ss: seq<string>)
    requires |ss| > 0
    ensures Accumulated(ss) == JoinSections(ss) + "\n\n"
  {
    if |ss| > 1 {
      AccumulatedIsJoinedPlusBlank(ss[1..]);
    }
  }

  lemma {:induction false} AccumulatedConcat(a: seq<string>, b: seq<string>)
    ensures Accumulated(a + b) == Accumulated(a) + Accumulated(b)
    decreases |a|
  {
    if |a| > 0 {
      assert (a + b)[1..] == a[1..] + b;
      AccumulatedConcat(a[1..], b);
    } else {
      assert a + b == b;
    }
  }

  /** Appending one optional section to the accumulated text. */
  lemma AccumulateStep(ss: seq<string>, sec: seq<string>)
    requires |sec| <= 1
    ensures Accumulated(ss + sec) == Accumulated(ss) + (if |sec| == 1 then sec[0] + "\n\n" else "")
  {
    AccumulatedConcat(ss, sec);
    if |sec| == 1 {
      assert Accumulated(sec[1..]) == "";
    }
  }

  lemma {:induction false} TrimEndDropsSpaces(x: string, w: string)
    requires AllSpace(w)
    ensures TrimEnd(x + w) == TrimEnd(x)
    decreases |w|
  {
    if |w| > 0 {
      assert (x + w)[..|x + w| - 1] == x + w[..|w| - 1];
      TrimEndDropsSpaces(x, w[..|w| - 1]);
    } else {
      assert x + w == x;
    }
  }

  /** The prompt text for a list of sections: the sections separated by blank lines, trailing whitespace dropped. */
  function Describe(ss: seq<string>): string {
    if |ss| == 0 then NoPermissionsText else TrimEnd(JoinSections(ss))
  }

  lemma TrimStartAtBullet(x: string)
    requires |x| > 0 && x[0] == '•'
    ensures TrimStart(x) == x
  {
  }

  lemma AccumulatedHead(ss: seq<string>)
    requires |ss| > 0 && |ss[0]| > 0
    ensures |Accumulated(ss)| > 0 && Accumulated(ss)[0] == ss[0][0]
  {
    assert Accumulated(ss) == ss[0] + ("\n\n" + Accumulated(ss[1..]));
  }

  lemma JoinSectionsHead(ss: seq<string>)
    requires |ss| > 0 && |ss[0]| > 0
    ensures |JoinSections(ss)| > 0 && JoinSections(ss)[0] == ss[0][0]
  {
    if |ss| > 1 {
      assert JoinSections(ss) == ss[0] + ("\n\n" + JoinSections(ss[1..]));
    }
  }

  /** Trimming the accumulated text of bulleted sections gives their description. */
  lemma TrimAccumulated(ss: seq<string>)
    requires Bulleted(ss)
    ensures |ss| == 0 ==> Trim(Accumulated(ss)) == ""
    ensures |ss| > 0 ==> Trim(Accumulated(ss)) == TrimEnd(JoinSections(ss)) != ""
  {
    if |ss| > 0 {
      AccumulatedIsJoinedPlusBlank(ss);
      TrimEndDropsSpaces(JoinSections(ss), "\n\n");
      AccumulatedHead(ss);
      TrimStartAtBullet(Accumulated(ss));
      JoinSectionsHead(ss);
      TrimEndKeepsHead(JoinSections(ss));
    }
  }

  /** One step of `formatPermissions` for a list-valued permission: its heading and lines, then a blank line. */
  method AppendListSection(acc: string, ghost ss: seq<string>, p: PluginPermissions, key: string, caption: string)
    returns (r: string)
    requires acc == Accumulated(ss)
    ensures r == Accumulated(ss + ListSection(p, key, caption))
  {
    r := acc;
    if HasItems(p, key) {
      r := r + Bullet(caption) + "\n" + ItemLines(Get(p, key).value.items) + "\n\n";
    }
    AccumulateStep(ss, ListSection(p, key, caption));
  }

  /** One step of `formatPermissions` for a permission granted in full: its line, then a blank line. */
  method AppendFlagSection(acc: string, ghost ss: seq<string>, p: PluginPermissions, key: string, caption: string)
    returns (r: string)
    requires acc == Accumulated(ss)
    ensures r == Accumulated(ss + FlagSection(p, key, caption))
  {
    r := acc;
    if Granted(p, key) {
      r := r + Bullet(caption) + "\n\n";
    }
    AccumulateStep(ss, FlagSection(p, key, caption));
  }

  /**
   * `formatPermissions`: appends each listed section followed by a blank
   * line, in the fixed order, and returns the trimmed text, or the fixed
   * message when nothing was listed.
   */
  method FormatPermissions(p: PluginPermissions) returns (text: string)
    ensures text == Describe(Sections(p))
  {
    var acc := AppendListSection("", [], p, "net", "Network Access:");
    ghost var ss := ListSection(p, "net", "Network Access:");
    assert [] + ss == ss;
    acc := AppendListSection(acc, ss, p, "read", "Read Files:");
    ss := ss + ListSection(p, "read", "Read Files:");
    acc := AppendListSection(acc, ss, p, "write", "Write Files:");
    ss := ss + ListSection(p, "write", "Write Files:");
    acc := AppendListSection(acc, ss, p, "run", "Run Subprocesses:");
    ss := ss + ListSection(p, "run", "Run Subprocesses:");
    acc := AppendListSection(acc, ss, p, "env", "Environment Variables:");
    ss := ss + ListSection(p, "env", "Environment Variables:");
    acc := AppendFlagSection(acc, ss, p, "net", "Full Network Access");
    ss := ss + FlagSection(p, "net", "Full Network Access");
    acc := AppendFlagSection(acc, ss, p, "read", "Read All Files");
    ss := ss + FlagSection(p, "read", "Read All Files");
    acc := AppendFlagSection(acc, ss, p, "write", "Write All Files");
    ss := ss + FlagSection(p, "write", "Write All Files");
    acc := AppendFlagSection(acc, ss, p, "run", "Run All Commands");
    ss := ss + FlagSection(p, "run", "Run All Commands");
    acc := AppendFlagSection(acc, ss, p, "env", "Access All Env Vars");
    ss := ss + FlagSection(p, "env", "Access All Env Vars");
    acc := AppendFlagSection(acc, ss, p, "ffi", "FFI (Foreign Function Interface)");
    ss := ss + FlagSection(p, "ffi", "FFI (Foreign Function Interface)");
    acc := AppendFlagSection(acc, ss, p, "hrtime", "High Resolution Time");
    ss := ss + FlagSection(p, "hrtime", "High Resolution Time");
    assert ss == Sections(p);

    var trimmed := Trim(acc);
    SectionsBulleted(p);
    TrimAccumulated(ss);
    if trimmed == "" {
      text := NoPermissionsText;
    } else {
      text := trimmed;
    }
  }

  /** Nothing is listed exactly when no list among net..env is non-empty and no permission is `true`. */
  lemma NothingListedIff(p: PluginPermissions)
    ensures Sections(p) == [] <==> !ListsSomething(p)
  {
  }

  /** The fixed message appears exactly when nothing is listed. */
  lemma DescribeNothingIff(p: PluginPermissions)
    ensures Describe(Sections(p)) == NoPermissionsText <==> !ListsSomething(p)
  {
    NothingListedIff(p);
    SectionsBulleted(p);
    var ss := Sections(p);
    if |ss| > 0 {
      TrimAccumulated(ss);
      var t := TrimEnd(JoinSections(ss));
      assert JoinSections(ss)[0] == '•';
      TrimEndKeepsHead(JoinSections(ss));
      assert t[0] == '•' != NoPermissionsText[0];
    }
  }

  lemma {:induction false} GetAppend(p: PluginPermissions, k: string, v: PermValue, key: string)
    requires k !in Keys(p)
    ensures Get(p + [(k, v)], key) == (if key == k then Some(v) else Get(p, key))
  {
    if |p| > 0 {
      assert (p + [(k, v)])[1..] == p[1..] + [(k, v)];
      assert Keys(p) == [p[0].0] + Keys(p[1..]);
      GetAppend(p[1..], k, v, key);
    } else {
      assert Keys([(k, v)]) == [k];
    }
  }

  /** Adding a `false` or an empty list under a new key does not change the prompt text. */
  lemma InertValuesContributeNothing(p: PluginPermissions, k: string, v: PermValue)
    requires k !in Keys(p)
    requires v == Flag(false) || v == Scoped([])
    ensures Sections(p + [(k, v)]) == Sections(p)
  {
    InertKey(p, k, v, "net", "Network Access:", "Full Network Access");
    InertKey(p, k, v, "read", "Read Files:", "Read All Files");
    InertKey(p, k, v, "write", "Write Files:", "Write All Files");
    InertKey(p, k, v, "run", "Run Subprocesses:", "Run All Commands");
    InertKey(p, k, v, "env", "Environment Variables:", "Access All Env Vars");
    InertKey(p, k, v, "ffi", "", "FFI (Foreign Function Interface)");
    InertKey(p, k, v, "hrtime", "", "High Resolution Time");
  }

  lemma InertKey(p: PluginPermissions, k: string, v: PermValue, key: string, listCaption: string, flagCaption: string)
    requires k !in Keys(p)
    requires v == Flag(false) || v == Scoped([])
    ensures ListSection(p + [(k, v)], key, listCaption) == ListSection(p, key, listCaption)
    ensures FlagSection(p + [(k, v)], key, flagCaption) == FlagSection(p, key, flagCaption)
  {
    GetAppend(p, k, v, key);
  }
}
