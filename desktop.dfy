/**
 * Reading one `.desktop` file (`parseDesktopFile` in `src/apps.ts`). The
 * content is split into lines, each line is trimmed, and only the lines
 * after the first `[Desktop Entry]` header and before the next other
 * section count. Within them the last `Name=`, `Exec=` and `Icon=` line
 * wins, and a `NoDisplay=true` line hides the entry. The declarative
 * `DesktopEntry` says what the file yields; the method `ParseDesktopFile`
 * is the source's single pass over the lines, proved equal to it.
 */
module DesktopEntry {
  import opened Interface
  import opened Text

  /** `AppInfo`: the icon is always present, empty when the file names none. */
  datatype AppInfo = AppInfo(name: string, exec: string, icon: string, path: string)

  const Header := "[Desktop Entry]"

  predicate IsHeader(t: string) {
    t == Header
  }

  /** A line that opens a section other than the desktop entry's own. */
  predicate OtherSection(t: string) {
    "[" <= t && t != Header
  }

  /** The field codes `%f %F %u %U %d %D %n %N %i %C %k %v %V %m` that are stripped from `Exec`. */
  predicate FieldCode(c: char) {
    || c == 'f' || c == 'F' || c == 'u' || c == 'U' || c == 'd' || c == 'D' || c == 'n'
    || c == 'N' || c == 'i' || c == 'C' || c == 'k' || c == 'v' || c == 'V' || c == 'm'
  }

  /**
   * `exec.replace(/%[fFuUdDnNiCkfvVm]/g, "")`: a left-to-right scan that
   * drops every `%` followed by a field code and does not look again at
   * what is left behind a removed pair.
   */
  function StripFieldCodes(s: string): (r: string)
    decreases |s|
  {
    if |s| == 0 then ""
    else if |s| >= 2 && s[0] == '%' && FieldCode(s[1]) then StripFieldCodes(s[2..])
    else [s[0]] + StripFieldCodes(s[1..])
  }

  /** A command without `%` is left as it is. */
  lemma {:induction false} StripWithoutPercent(s: string)
    requires '%' !in s
    ensures StripFieldCodes(s) == s
    decreases |s|
  {
    if |s| > 0 {
      assert '%' !in s[1..] by {
        assert forall c :: c in s[1..] ==> c in s;
      }
      StripWithoutPercent(s[1..]);
      assert s == [s[0]] + s[1..];
    }
  }

  /** Stripping only removes characters: whatever is left was in the command. */
  lemma {:induction false} StripFieldCodesMembers(s: string)
    ensures forall c :: c in StripFieldCodes(s) ==> c in s
    decreases |s|
  {
    if |s| >= 2 && s[0] == '%' && FieldCode(s[1]) {
      StripFieldCodesMembers(s[2..]);
      assert forall c :: c in s[2..] ==> c in s;
    } else if |s| > 0 {
      StripFieldCodesMembers(s[1..]);
      assert s == [s[0]] + s[1..];
    }
  }

  /** Stripping works piece by piece when the first piece does not end in `%`. */
  lemma {:induction false} StripFieldCodesConcat(a: string, b: string)
    requires |a| == 0 || a[|a| - 1] != '%'
    ensures StripFieldCodes(a + b) == StripFieldCodes(a) + StripFieldCodes(b)
    decreases |a|
  {
    if |a| == 0 {
      assert a + b == b;
    } else if |a| >= 2 && a[0] == '%' && FieldCode(a[1]) {
      StripFieldCodesConcat(a[2..], b);
      StripDropStep(a, b);
    } else {
      StripFieldCodesConcat(a[1..], b);
      StripKeepStep(a, b);
    }
  }

  lemma StripKept(s: string)
    requires |s| >= 1 && !(|s| >= 2 && s[0] == '%' && FieldCode(s[1]))
    ensures StripFieldCodes(s) == [s[0]] + StripFieldCodes(s[1..])
  {
  }

  lemma StripDropStep(a: string, b: string)
    requires |a| >= 2 && a[0] == '%' && FieldCode(a[1])
    requires StripFieldCodes(a[2..] + b) == StripFieldCodes(a[2..]) + StripFieldCodes(b)
    ensures StripFieldCodes(a + b) == StripFieldCodes(a) + StripFieldCodes(b)
  {
    var ab := a + b;
    assert ab[0] == '%' && ab[1] == a[1];
    assert ab[2..] == a[2..] + b;
    assert StripFieldCodes(ab) == StripFieldCodes(a[2..] + b);
    assert StripFieldCodes(a) == StripFieldCodes(a[2..]);
  }

  lemma StripKeepStep(a: string, b: string)
    requires |a| >= 1 && a[|a| - 1] != '%' && !(|a| >= 2 && a[0] == '%' && FieldCode(a[1]))
    requires StripFieldCodes(a[1..] + b) == StripFieldCodes(a[1..]) + StripFieldCodes(b)
    ensures StripFieldCodes(a + b) == StripFieldCodes(a) + StripFieldCodes(b)
  {
    StripKeptConcat(a, b);
    StripKept(a);
    Associative([a[0]], StripFieldCodes(a[1..]), StripFieldCodes(b));
  }

  lemma StripKeptConcat(a: string, b: string)
    requires |a| >= 1 && a[|a| - 1] != '%' && !(|a| >= 2 && a[0] == '%' && FieldCode(a[1]))
    ensures StripFieldCodes(a + b) == [a[0]] + StripFieldCodes(a[1..] + b)
  {
    var ab := a + b;
    assert ab[0] == a[0] && ab[1..] == a[1..] + b;
    assert !(|ab| >= 2 && ab[0] == '%' && FieldCode(ab[1])) by {
      if |a| >= 2 { assert ab[1] == a[1]; }
    }
    StripKept(ab);
  }


  /** The trimmed lines of the content, in order. */
  function TrimmedLines(content: string): (ts: seq<string>)
    ensures |ts| == |Split(content, '\n')|
    ensures forall k :: 0 <= k < |ts| ==> ts[k] == Trim(Split(content, '\n')[k])
  {
    var lines := Split(content, '\n');
    seq(|lines|, k requires 0 <= k < |lines| => Trim(lines[k]))
  }

  /** The position of the first header line, `|ts|` when there is none. */
  function FirstHeader(ts: seq<string>): (i: nat)
    ensures i <= |ts|
  {
    if |ts| == 0 then 0
    else if ts[0] == Header then 0
    else 1 + FirstHeader(ts[1..])
  }

  /** The first header is a header, and no line before it is one. */
  lemma {:induction false} FirstHeaderIsFirst(ts: seq<string>)
    ensures FirstHeader(ts) < |ts| ==> ts[FirstHeader(ts)] == Header
    ensures forall j :: 0 <= j < FirstHeader(ts) ==> ts[j] != Header
  {
    if |ts| > 0 && ts[0] != Header {
      FirstHeaderIsFirst(ts[1..]);
      assert forall j :: 1 <= j < |ts| ==> ts[j] == ts[1..][j - 1];
    }
  }

  /** The position of the first other section at or after `from`, `|ts|` when there is none. */
  function SectionEnd(ts: seq<string>, from: nat): (e: nat)
    requires from <= |ts|
    ensures from <= e <= |ts|
    decreases |ts| - from
  {
    if from == |ts| then from
    else if OtherSection(ts[from]) then from
    else SectionEnd(ts, from + 1)
  }

  /** The section ends at another section, and no line before its end opens one. */
  lemma {:induction false} SectionEndIsFirst(ts: seq<string>, from: nat)
    requires from <= |ts|
    ensures SectionEnd(ts, from) < |ts| ==> OtherSection(ts[SectionEnd(ts, from)])
    ensures forall j :: from <= j < SectionEnd(ts, from) ==> !OtherSection(ts[j])
    decreases |ts| - from
  {
    if from < |ts| && !OtherSection(ts[from]) {
      SectionEndIsFirst(ts, from + 1);
    }
  }

  /** Conversely, a position with no other section before it and one (or the end) at it is the section's end. */
  lemma {:induction false} SectionEndAt(ts: seq<string>, from: nat, e: nat)
    requires from <= e <= |ts|
    requires forall j :: from <= j < e ==> !OtherSection(ts[j])
    requires e == |ts| || OtherSection(ts[e])
    ensures SectionEnd(ts, from) == e
    decreases e - from
  {
    if from < e {
      SectionEndAt(ts, from + 1, e);
    }
  }

  /**
   * The value of the last line in `ts[lo..hi]` that starts with `prefix`,
   * with the prefix cut off; empty when no such line exists.
   */
  function LastValue(ts: seq<string>, lo: nat, hi: nat, prefix: string): (v: string)
    requires lo <= hi <= |ts|
    decreases hi - lo
  {
    if hi == lo then ""
    else if prefix <= ts[hi - 1] then ts[hi - 1][|prefix|..]
    else LastValue(ts, lo, hi - 1, prefix)
  }

  /** A later line with the same key overrides an earlier one; with no such line the value is empty. */
  lemma {:induction false} LastLineWins(ts: seq<string>, lo: nat, hi: nat, prefix: string)
    requires lo <= hi <= |ts|
    ensures (forall j :: lo <= j < hi ==> !(prefix <= ts[j])) ==> LastValue(ts, lo, hi, prefix) == ""
    ensures forall j :: lo <= j < hi && prefix <= ts[j] && (forall k :: j < k < hi ==> !(prefix <= ts[k])) ==>
      LastValue(ts, lo, hi, prefix) == ts[j][|prefix|..]
    decreases hi - lo
  {
    if hi > lo && !(prefix <= ts[hi - 1]) {
      LastLineWins(ts, lo, hi - 1, prefix);
    }
  }

  /** Some line in `ts[lo..hi]` starts with `prefix`. */
  predicate AnyStarts(ts: seq<string>, lo: nat, hi: nat, prefix: string)
    requires lo <= hi <= |ts|
  {
    exists j :: lo <= j < hi && prefix <= ts[j]
  }

  /** The variables of the scan: inside the entry yet, and the fields seen so far. */
  datatype Scan = Scan(inEntry: bool, name: string, exec: string, icon: string, noDisplay: bool)

  /**
   * What the trimmed lines `ts` say: whether they hold a header and, if so,
   * the last `Name=`, `Exec=` and `Icon=` values and whether a
   * `NoDisplay=true` line appears between the first header and the next
   * other section.
   */
  function Fields(ts: seq<string>): Scan {
    var s := FirstHeader(ts);
    if s == |ts| then Scan(false, "", "", "", false)
    else
      var e := SectionEnd(ts, s + 1);
      Scan(true, LastValue(ts, s + 1, e, "Name="), LastValue(ts, s + 1, e, "Exec="),
        LastValue(ts, s + 1, e, "Icon="), AnyStarts(ts, s + 1, e, "NoDisplay=true"))
  }

  /** The application the fields describe: it needs a name and a command and must not be hidden. */
  function Finish(f: Scan, path: string): Option<AppInfo> {
    if f.name != "" && f.exec != "" && !f.noDisplay then
      Some(AppInfo(f.name, Trim(StripFieldCodes(f.exec)), f.icon, path))
    else None
  }

  /** The entry found in the trimmed lines `ts`. */
  function EntryOf(ts: seq<string>, path: string): Option<AppInfo> {
    Finish(Fields(ts), path)
  }

  /** An entry is produced exactly when a header was seen and the fields give a name and a command and do not hide it. */
  lemma EntryOfIff(ts: seq<string>, path: string)
    ensures EntryOf(ts, path).Some? <==>
      Header in ts && Fields(ts).name != "" && Fields(ts).exec != "" && !Fields(ts).noDisplay
    ensures EntryOf(ts, path).Some? ==>
      var app := EntryOf(ts, path).value;
      app.name == Fields(ts).name && app.icon == Fields(ts).icon && app.path == path
      && app.exec == Trim(StripFieldCodes(Fields(ts).exec))
  {
    var s := FirstHeader(ts);
    FirstHeaderIsFirst(ts);
    if Header in ts {
      var j :| 0 <= j < |ts| && ts[j] == Header;
      assert s <= j;
    }
  }

  lemma {:induction false} FirstHeaderShift(pre: seq<string>, ts: seq<string>)
    requires forall j :: 0 <= j < |pre| ==> pre[j] != Header
    ensures FirstHeader(pre + ts) == |pre| + FirstHeader(ts)
  {
    if |pre| > 0 {
      assert (pre + ts)[1..] == pre[1..] + ts;
      FirstHeaderShift(pre[1..], ts);
    } else {
      assert pre + ts == ts;
    }
  }

  lemma {:induction false} SectionEndShift(pre: seq<string>, ts: seq<string>, from: nat, from': nat)
    requires from <= |ts| && from' == |pre| + from
    ensures SectionEnd(pre + ts, from') == |pre| + SectionEnd(ts, from)
    decreases |ts| - from
  {
    if from < |ts| && !OtherSection(ts[from]) {
      assert (pre + ts)[from'] == ts[from];
      SectionEndShift(pre, ts, from + 1, from' + 1);
    } else if from < |ts| {
      assert (pre + ts)[from'] == ts[from];
    }
  }

  lemma {:induction false} LastValueShift(pre: seq<string>, ts: seq<string>, lo: nat, hi: nat, lo': nat, hi': nat, prefix: string)
    requires lo <= hi <= |ts| && lo' == |pre| + lo && hi' == |pre| + hi
    ensures LastValue(pre + ts, lo', hi', prefix) == LastValue(ts, lo, hi, prefix)
    decreases hi - lo
  {
    if hi > lo {
      assert (pre + ts)[hi' - 1] == ts[hi - 1];
      LastValueShift(pre, ts, lo, hi - 1, lo', hi' - 1, prefix);
    }
  }

  lemma AnyStartsShift(pre: seq<string>, ts: seq<string>, lo: nat, hi: nat, lo': nat, hi': nat, prefix: string)
    requires lo <= hi <= |ts| && lo' == |pre| + lo && hi' == |pre| + hi
    ensures AnyStarts(pre + ts, lo', hi', prefix) <==> AnyStarts(ts, lo, hi, prefix)
  {
    forall j | lo <= j < hi ensures (pre + ts)[|pre| + j] == ts[j] {
    }
    if AnyStarts(pre + ts, lo', hi', prefix) {
      var j :| lo' <= j < hi' && prefix <= (pre + ts)[j];
      assert (pre + ts)[|pre| + (j - |pre|)] == ts[j - |pre|];
    }
  }

  /** Lines before the first header, whatever they hold, do not change what the file yields. */
  lemma LinesBeforeHeaderIgnored(pre: seq<string>, ts: seq<string>, path: string)
    requires forall j :: 0 <= j < |pre| ==> pre[j] != Header
    ensures EntryOf(pre + ts, path) == EntryOf(ts, path)
  {
    FirstHeaderShift(pre, ts);
    if FirstHeader(ts) < |ts| {
      FieldsAfterPrefix(pre, ts);
    }
  }

  lemma FieldsAfterPrefix(pre: seq<string>, ts: seq<string>)
    requires FirstHeader(ts) < |ts| && FirstHeader(pre + ts) == |pre| + FirstHeader(ts)
    ensures Fields(pre + ts) == Fields(ts)
  {
    var s, s' := FirstHeader(ts), FirstHeader(pre + ts);
    SectionEndAfterPrefix(pre, ts, s, s');
    FieldsShift(pre, ts, s, SectionEnd(ts, s + 1), s', SectionEnd(pre + ts, s' + 1));
  }

  lemma SectionEndAfterPrefix(pre: seq<string>, ts: seq<string>, s: nat, s': nat)
    requires s < |ts| && s' == |pre| + s
    ensures SectionEnd(pre + ts, s' + 1) == |pre| + SectionEnd(ts, s + 1)
  {
    SectionEndShift(pre, ts, s + 1, s' + 1);
  }

  lemma {:induction false} LastValuePrefix(ts: seq<string>, more: seq<string>, lo: nat, hi: nat, prefix: string)
    requires lo <= hi <= |ts|
    ensures LastValue(ts + more, lo, hi, prefix) == LastValue(ts, lo, hi, prefix)
    decreases hi - lo
  {
    if hi > lo {
      assert (ts + more)[hi - 1] == ts[hi - 1];
      LastValuePrefix(ts, more, lo, hi - 1, prefix);
    }
  }

  lemma AnyStartsPrefix(ts: seq<string>, more: seq<string>, lo: nat, hi: nat, prefix: string)
    requires lo <= hi <= |ts|
    ensures AnyStarts(ts + more, lo, hi, prefix) <==> AnyStarts(ts, lo, hi, prefix)
  {
    forall j | lo <= j < hi ensures (ts + more)[j] == ts[j] {
    }
  }

  lemma {:induction false} FirstHeaderAppend(ts: seq<string>, more: seq<string>)
    requires FirstHeader(ts) < |ts|
    ensures FirstHeader(ts + more) == FirstHeader(ts)
  {
    if ts[0] != Header {
      assert (ts + more)[1..] == ts[1..] + more;
      FirstHeaderAppend(ts[1..], more);
    }
  }

  lemma {:induction false} SectionEndAppend(ts: seq<string>, more: seq<string>, from: nat)
    requires from <= |ts| && |more| > 0 && OtherSection(more[0])
    ensures SectionEnd(ts + more, from) == SectionEnd(ts, from)
    decreases |ts| - from
  {
    if from == |ts| {
      assert (ts + more)[from] == more[0];
    } else {
      assert (ts + more)[from] == ts[from];
      if !OtherSection(ts[from]) {
        SectionEndAppend(ts, more, from + 1);
      }
    }
  }

  /** Once the entry has started, another section ends it: nothing from that section on is read. */
  lemma OtherSectionEndsEntry(ts: seq<string>, t: string, rest: seq<string>, path: string)
    requires Header in ts && OtherSection(t)
    ensures EntryOf(ts + [t] + rest, path) == EntryOf(ts, path)
  {
    var more := [t] + rest;
    assert ts + [t] + rest == ts + more;
    FieldsBeforeSection(ts, more);
  }

  lemma FieldsBeforeSection(ts: seq<string>, more: seq<string>)
    requires Header in ts && |more| > 0 && OtherSection(more[0])
    ensures Fields(ts + more) == Fields(ts)
  {
    var j :| 0 <= j < |ts| && ts[j] == Header;
    var s := FirstHeader(ts);
    FirstHeaderIsFirst(ts);
    assert s <= j < |ts|;
    FirstHeaderAppend(ts, more);
    SectionEndAppend(ts, more, s + 1);
    var e := SectionEnd(ts, s + 1);
    FieldsAppend(ts, more, s, e);
  }

  lemma FieldsShift(pre: seq<string>, ts: seq<string>, s: nat, e: nat, s': nat, e': nat)
    requires s == FirstHeader(ts) && s < |ts| && e == SectionEnd(ts, s + 1)
    requires s' == FirstHeader(pre + ts) && s' == |pre| + s && e' == SectionEnd(pre + ts, s' + 1) && e' == |pre| + e
    ensures Fields(pre + ts) == Fields(ts)
  {
    LastValueShift(pre, ts, s + 1, e, s' + 1, e', "Name=");
    LastValueShift(pre, ts, s + 1, e, s' + 1, e', "Exec=");
    LastValueShift(pre, ts, s + 1, e, s' + 1, e', "Icon=");
    AnyStartsShift(pre, ts, s + 1, e, s' + 1, e', "NoDisplay=true");
    FieldsSame(ts, pre + ts, s, e, s', e');
  }

  lemma FieldsAppend(ts: seq<string>, more: seq<string>, s: nat, e: nat)
    requires s == FirstHeader(ts) == FirstHeader(ts + more) && s < |ts|
    requires e == SectionEnd(ts, s + 1) == SectionEnd(ts + more, s + 1)
    ensures Fields(ts + more) == Fields(ts)
  {
    LastValuePrefix(ts, more, s + 1, e, "Name=");
    LastValuePrefix(ts, more, s + 1, e, "Exec=");
    LastValuePrefix(ts, more, s + 1, e, "Icon=");
    AnyStartsPrefix(ts, more, s + 1, e, "NoDisplay=true");
    FieldsSame(ts, ts + more, s, e, s, e);
  }

  /** Two line lists whose entry sections give the same values have the same fields. */
  lemma FieldsSame(ts: seq<string>, us: seq<string>, s: nat, e: nat, s': nat, e': nat)
    requires s == FirstHeader(ts) && s < |ts| && e == SectionEnd(ts, s + 1)
    requires s' == FirstHeader(us) && s' < |us| && e' == SectionEnd(us, s' + 1)
    requires LastValue(us, s' + 1, e', "Name=") == LastValue(ts, s + 1, e, "Name=")
    requires LastValue(us, s' + 1, e', "Exec=") == LastValue(ts, s + 1, e, "Exec=")
    requires LastValue(us, s' + 1, e', "Icon=") == LastValue(ts, s + 1, e, "Icon=")
    requires AnyStarts(us, s' + 1, e', "NoDisplay=true") <==> AnyStarts(ts, s + 1, e, "NoDisplay=true")
    ensures Fields(us) == Fields(ts)
  {
    FieldsInRange(ts, s, e);
    FieldsInRange(us, s', e');
  }

  /** The fields of lines whose first header is at `s` and whose section ends at `e`. */
  lemma FieldsInRange(ts: seq<string>, s: nat, e: nat)
    requires s == FirstHeader(ts) && s < |ts| && e == SectionEnd(ts, s + 1)
    ensures Fields(ts) == Scan(true, LastValue(ts, s + 1, e, "Name="), LastValue(ts, s + 1, e, "Exec="),
      LastValue(ts, s + 1, e, "Icon="), AnyStarts(ts, s + 1, e, "NoDisplay=true"))
  {
  }

  /** What a desktop file yields: an application, or nothing. */
  function DesktopEntry(content: string, path: string): Option<AppInfo> {
    EntryOf(TrimmedLines(content), path)
  }

  /** One more line widens the range by that line alone. */
  lemma Extend(ts: seq<string>, lo: nat, i: nat, prefix: string)
    requires lo <= i < |ts|
    ensures LastValue(ts, lo, i + 1, prefix) == if prefix <= ts[i] then ts[i][|prefix|..] else LastValue(ts, lo, i, prefix)
    ensures AnyStarts(ts, lo, i + 1, prefix) <==> AnyStarts(ts, lo, i, prefix) || prefix <= ts[i]
  {
    if prefix <= ts[i] {
      assert lo <= i < i + 1 && prefix <= ts[i];
    }
  }

  const Start := Scan(false, "", "", "", false)

  /** After the first `i` lines the scan holds exactly what the declarative reading of those lines gives. */
  ghost predicate Tracks(ts: seq<string>, i: nat, st: Scan)
    requires i <= |ts|
  {
    var s := FirstHeader(ts);
    && (st.inEntry <==> s < i)
    && (!st.inEntry ==> st == Start)
    && (st.inEntry ==> 
      && i <= SectionEnd(ts, s + 1)
      && st.name == LastValue(ts, s + 1, i, "Name=")
      && st.exec == LastValue(ts, s + 1, i, "Exec=")
      && st.icon == LastValue(ts, s + 1, i, "Icon=")
      && (st.noDisplay <==> AnyStarts(ts, s + 1, i, "NoDisplay=true")))
  }

  /**
   * One pass of the loop body on a trimmed line: the header switches the
   * scan on, lines before it are skipped, another section stops the scan,
   * and otherwise the first matching key is recorded.
   */
  predicate Step(t: string, st: Scan, st': Scan, stop: bool) {
    && (stop <==> st.inEntry && OtherSection(t))
    && (!stop && IsHeader(t) ==> st' == st.(inEntry := true))
    && (!stop && !IsHeader(t) && !st.inEntry ==> st' == st)
    && (!stop && !IsHeader(t) && st.inEntry ==>
      && st'.inEntry
      && st'.name == (if "Name=" <= t then t[5..] else st.name)
      && st'.exec == (if "Exec=" <= t then t[5..] else st.exec)
      && st'.icon == (if "Icon=" <= t then t[5..] else st.icon)
      && st'.noDisplay == (st.noDisplay || "NoDisplay=true" <= t))
  }

  /** The loop body as a method: it computes the next scan and whether to stop, as `Step` says. */
  method ScanLine(trimmed: string, st: Scan) returns (st': Scan, stop: bool)
    ensures Step(trimmed, st, st', stop)
  {
    st', stop := st, false;
    if IsHeader(trimmed) {
      st' := st'.(inEntry := true);
      return;
    }
    if !st.inEntry {
      return;
    }
    if OtherSection(trimmed) {
      stop := true;
      return;
    }
    if "Name=" <= trimmed {
      st' := st'.(name := trimmed[5..]);
      assert trimmed[1] == 'a';
    } else if "Exec=" <= trimmed {
      st' := st'.(exec := trimmed[5..]);
    } else if "Icon=" <= trimmed {
      st' := st'.(icon := trimmed[5..]);
    } else if "NoDisplay=true" <= trimmed {
      st' := st'.(noDisplay := true);
    }
  }

  /** The loop body keeps the scan in step with the declarative reading, and it stops exactly at the section's end. */
  lemma StepTracks(ts: seq<string>, i: nat, st: Scan, st': Scan, stop: bool)
    requires i < |ts| && Tracks(ts, i, st)
    requires Step(ts[i], st, st', stop)
    ensures stop ==> st.inEntry && i == SectionEnd(ts, FirstHeader(ts) + 1)
    ensures !stop ==> Tracks(ts, i + 1, st')
  {
    if st.inEntry && OtherSection(ts[i]) {
      assert stop;
      StopAtSectionEnd(ts, i, FirstHeader(ts));
    } else if !st.inEntry {
      StepBeforeEntry(ts, i, st, st', stop);
    } else {
      StepInEntry(ts, i, st, st', stop);
    }
  }

  lemma StopAtSectionEnd(ts: seq<string>, i: nat, s: nat)
    requires s == FirstHeader(ts) && s < i < |ts| && i <= SectionEnd(ts, s + 1) && OtherSection(ts[i])
    ensures i == SectionEnd(ts, s + 1)
  {
    SectionEndIsFirst(ts, s + 1);
  }

  lemma StepBeforeEntry(ts: seq<string>, i: nat, st: Scan, st': Scan, stop: bool)
    requires i < |ts| && Tracks(ts, i, st) && !st.inEntry && Step(ts[i], st, st', stop)
    ensures !stop && Tracks(ts, i + 1, st')
  {
    var s := FirstHeader(ts);
    FirstHeaderIsFirst(ts);
    if IsHeader(ts[i]) {
      assert s == i;
      assert !AnyStarts(ts, s + 1, i + 1, "NoDisplay=true");
    }
  }

  lemma StepInEntry(ts: seq<string>, i: nat, st: Scan, st': Scan, stop: bool)
    requires i < |ts| && Tracks(ts, i, st) && st.inEntry && !OtherSection(ts[i]) && Step(ts[i], st, st', stop)
    ensures !stop && Tracks(ts, i + 1, st')
  {
    var s := FirstHeader(ts);
    var e := SectionEnd(ts, s + 1);
    assert i < e by {
      SectionEndIsFirst(ts, s + 1);
    }
    InEntryFields(ts, s + 1, i, st, st', stop);
    EnterTracks(ts, i, s, st');
  }

  /** Inside the entry, one step extends each recorded field by the line read. */
  lemma InEntryFields(ts: seq<string>, lo: nat, i: nat, st: Scan, st': Scan, stop: bool)
    requires lo <= i < |ts| && st.inEntry && !OtherSection(ts[i]) && Step(ts[i], st, st', stop)
    requires st.name == LastValue(ts, lo, i, "Name=") && st.exec == LastValue(ts, lo, i, "Exec=")
    requires st.icon == LastValue(ts, lo, i, "Icon=") && (st.noDisplay <==> AnyStarts(ts, lo, i, "NoDisplay=true"))
    ensures !stop && st'.inEntry
    ensures st'.name == LastValue(ts, lo, i + 1, "Name=") && st'.exec == LastValue(ts, lo, i + 1, "Exec=")
    ensures st'.icon == LastValue(ts, lo, i + 1, "Icon=") && (st'.noDisplay <==> AnyStarts(ts, lo, i + 1, "NoDisplay=true"))
  {
    ExtendAll(ts, lo, i);
    if IsHeader(ts[i]) {
      HeaderHasNoKey();
    }
  }

  /** A scan inside the entry whose fields are those of the lines read tracks them. */
  lemma EnterTracks(ts: seq<string>, i: nat, s: nat, st': Scan)
    requires i < |ts| && s == FirstHeader(ts) && s < i + 1 <= SectionEnd(ts, s + 1) && st'.inEntry
    requires st'.name == LastValue(ts, s + 1, i + 1, "Name=") && st'.exec == LastValue(ts, s + 1, i + 1, "Exec=")
    requires st'.icon == LastValue(ts, s + 1, i + 1, "Icon=")
    requires st'.noDisplay <==> AnyStarts(ts, s + 1, i + 1, "NoDisplay=true")
    ensures Tracks(ts, i + 1, st')
  {
  }

  lemma ExtendAll(ts: seq<string>, lo: nat, i: nat)
    requires lo <= i < |ts|
    ensures LastValue(ts, lo, i + 1, "Name=") == if "Name=" <= ts[i] then ts[i][5..] else LastValue(ts, lo, i, "Name=")
    ensures LastValue(ts, lo, i + 1, "Exec=") == if "Exec=" <= ts[i] then ts[i][5..] else LastValue(ts, lo, i, "Exec=")
    ensures LastValue(ts, lo, i + 1, "Icon=") == if "Icon=" <= ts[i] then ts[i][5..] else LastValue(ts, lo, i, "Icon=")
    ensures AnyStarts(ts, lo, i + 1, "NoDisplay=true") <==> AnyStarts(ts, lo, i, "NoDisplay=true") || "NoDisplay=true" <= ts[i]
  {
    Extend(ts, lo, i, "Name=");
    Extend(ts, lo, i, "Exec=");
    Extend(ts, lo, i, "Icon=");
    Extend(ts, lo, i, "NoDisplay=true");
  }

  lemma HeaderHasNoKey()
    ensures !("Name=" <= Header) && !("Exec=" <= Header) && !("Icon=" <= Header) && !("NoDisplay=true" <= Header)
  {
    assert Header[0] == '[';
  }

  /** A scan that has read up to the section's end holds the declarative fields. */
  lemma FinishTracks(ts: seq<string>, i: nat, st: Scan)
    requires i <= |ts| && Tracks(ts, i, st)
    requires st.inEntry ==> i == SectionEnd(ts, FirstHeader(ts) + 1)
    requires !st.inEntry ==> i == |ts|
    ensures Fields(ts) == st
  {
    if st.inEntry {
      FinishInEntry(ts, FirstHeader(ts), i, st);
    } else {
      assert FirstHeader(ts) == |ts|;
    }
  }

  lemma FinishInEntry(ts: seq<string>, s: nat, e: nat, st: Scan)
    requires s == FirstHeader(ts) && s < |ts| && e == SectionEnd(ts, s + 1) && st.inEntry
    requires st.name == LastValue(ts, s + 1, e, "Name=") && st.exec == LastValue(ts, s + 1, e, "Exec=")
    requires st.icon == LastValue(ts, s + 1, e, "Icon=") && (st.noDisplay <==> AnyStarts(ts, s + 1, e, "NoDisplay=true"))
    ensures Fields(ts) == st
  {
    FieldsInRange(ts, s, e);
  }

  /**
   * `parseDesktopFile`: one pass over the lines, switching on at the first
   * header and stopping at the next other section.
   */
  method ParseDesktopFile(content: string, path: string) returns (app: Option<AppInfo>)
    ensures app == DesktopEntry(content, path)
  {
    var lines := Split(content, '\n');
    ghost var ts := TrimmedLines(content);
    var st := Start;
    var stop := false;
    var i := 0;
    while i < |lines| && !stop
      invariant i <= |lines| == |ts|
      invariant Tracks(ts, i, st)
      invariant stop ==> i < |lines| && st.inEntry && i == SectionEnd(ts, FirstHeader(ts) + 1)
      decreases |lines| - i, !stop
    {
      var trimmed := Trim(lines[i]);
      assert trimmed == ts[i];
      var st';
      st', stop := ScanLine(trimmed, st);
      StepTracks(ts, i, st, st', stop);
      if !stop {
        st, i := st', i + 1;
      }
    }
    FinishTracks(ts, i, st);
    assert DesktopEntry(content, path) == Finish(st, path);
    if st.name != "" && st.exec != "" && !st.noDisplay {
      app := Some(AppInfo(st.name, Trim(StripFieldCodes(st.exec)), st.icon, path));
    } else {
      app := None;
    }
  }

  /** The content of a file written line by line, each line ended by a newline. */
  function FileOf(lines: seq<string>): string {
    Join(lines + [""], '\n')
  }

  /** A line without a newline and without whitespace at either end. */
  predicate PlainLine(t: string) {
    '\n' !in t && (|t| > 0 ==> !IsSpace(t[0]) && !IsSpace(t[|t| - 1]))
  }

  /** Reading a file made of plain lines sees exactly those lines and a last empty one. */
  lemma TrimmedFileLines(lines: seq<string>)
    requires forall k :: 0 <= k < |lines| ==> PlainLine(lines[k])
    ensures TrimmedLines(FileOf(lines)) == lines + [""]
  {
    var parts := lines + [""];
    SplitJoin(parts, '\n');
    forall k | 0 <= k < |parts| ensures Trim(parts[k]) == parts[k] {
      TrimPlain(parts[k]);
    }
  }

  lemma StripFirefox()
    ensures StripFieldCodes("firefox %u") == "firefox "
  {
    StripFieldCodesConcat("firefox ", "%u");
    assert "firefox %u" == "firefox " + "%u";
    StripWithoutPercent("firefox ");
    assert StripFieldCodes("%u") == "";
  }

  /** Trailing whitespace after a plain end is dropped by `trim`. */
  lemma TrimTrailingSpace(t: string)
    requires |t| > 0 && !IsSpace(t[0]) && !IsSpace(t[|t| - 1])
    ensures Trim(t + " ") == t
  {
    assert (t + " ")[0] == t[0];
    assert TrimStart(t + " ") == t + " ";
    assert (t + " ")[..|t|] == t;
    assert TrimEnd(t + " ") == TrimEnd(t);
    assert TrimEnd(t) == t;
  }

  /** A command without field codes and without surrounding whitespace is kept as it is. */
  lemma PlainCommand(t: string)
    requires '%' !in t
    requires |t| > 0 ==> !IsSpace(t[0]) && !IsSpace(t[|t| - 1])
    ensures Trim(StripFieldCodes(t)) == t
  {
    StripWithoutPercent(t);
    TrimPlain(t);
  }

  lemma CleanFirefox()
    ensures Trim(StripFieldCodes("firefox %u")) == "firefox"
  {
    StripFirefox();
    TrimTrailingSpace("firefox");
    assert "firefox " == "firefox" + " ";
  }

  /** A line that does not start with `[` opens no section. */
  lemma NotSection(t: string)
    requires |t| == 0 || t[0] != '['
    ensures !OtherSection(t)
  {
  }

  /** A file of plain lines yields what the fields of those lines, and a last empty one, describe. */
  lemma FileEntry(lines: seq<string>, path: string)
    requires forall k :: 0 <= k < |lines| ==> PlainLine(lines[k])
    ensures DesktopEntry(FileOf(lines), path) == Finish(Fields(lines + [""]), path)
  {
    TrimmedFileLines(lines);
  }

  /** The standard entry of the test suite. */
  const StandardFile := ["[Desktop Entry]", "Name=Firefox", "Exec=firefox %u", "Icon=firefox", "Type=Application"]

  lemma StandardFilePlain()
    ensures forall k :: 0 <= k < |StandardFile| ==> PlainLine(StandardFile[k])
  {
  }

  /** The lines of an entry that names itself, its command and its icon, in that order, and then its type. */
  function EntryLines(name: string, exec: string, icon: string): seq<string> {
    [Header, "Name=" + name, "Exec=" + exec, "Icon=" + icon, "Type=Application", ""]
  }

  lemma FieldsOfEntryLines(name: string, exec: string, icon: string)
    ensures Fields(EntryLines(name, exec, icon)) == Scan(true, name, exec, icon, false)
  {
    var ts := EntryLines(name, exec, icon);
    assert FirstHeader(ts) == 0;
    EntryLinesEnd(name, exec, icon);
    EntryLinesValues(name, exec, icon);
    EntryLinesShown(name, exec, icon);
    FieldsInRange(ts, 0, 6);
  }

  lemma EntryLinesEnd(name: string, exec: string, icon: string)
    ensures SectionEnd(EntryLines(name, exec, icon), 1) == 6
  {
    var ts := EntryLines(name, exec, icon);
    assert ts[1][0] == 'N' && ts[2][0] == 'E' && ts[3][0] == 'I' && ts[4][0] == 'T';
    forall j | 1 <= j < 6 ensures !OtherSection(ts[j]) {
      NotSection(ts[j]);
    }
    SectionEndAt(ts, 1, 6);
  }

  lemma EntryLinesValues(name: string, exec: string, icon: string)
    ensures LastValue(EntryLines(name, exec, icon), 1, 6, "Name=") == name
    ensures LastValue(EntryLines(name, exec, icon), 1, 6, "Exec=") == exec
    ensures LastValue(EntryLines(name, exec, icon), 1, 6, "Icon=") == icon
  {
    var ts := EntryLines(name, exec, icon);
    assert ts[1][0] == 'N' && ts[2][0] == 'E' && ts[3][0] == 'I' && ts[4][0] == 'T';
    assert ts[1][5..] == name && ts[2][5..] == exec && ts[3][5..] == icon;
    assert LastValue(ts, 1, 2, "Name=") == name;
    assert LastValue(ts, 1, 6, "Name=") == name;
    assert LastValue(ts, 1, 3, "Exec=") == exec;
    assert LastValue(ts, 1, 6, "Exec=") == exec;
    assert LastValue(ts, 1, 4, "Icon=") == icon;
  }

  lemma EntryLinesShown(name: string, exec: string, icon: string)
    ensures !AnyStarts(EntryLines(name, exec, icon), 1, 6, "NoDisplay=true")
  {
    var ts := EntryLines(name, exec, icon);
    assert ts[1][0] == 'N' && ts[2][0] == 'E' && ts[3][0] == 'I' && ts[4][0] == 'T';
    forall j | 1 <= j < 6 ensures !("NoDisplay=true" <= ts[j]) {
      if |ts[j]| >= 14 {
        assert ts[j][0] != 'N' || ts[j][1] != 'o';
      }
    }
  }

  lemma FieldsOfStandard()
    ensures Fields(StandardFile + [""]) == Scan(true, "Firefox", "firefox %u", "firefox", false)
  {
    assert "Name=" + "Firefox" == "Name=Firefox" && "Exec=" + "firefox %u" == "Exec=firefox %u";
    assert "Icon=" + "firefox" == "Icon=firefox";
    assert StandardFile + [""] == EntryLines("Firefox", "firefox %u", "firefox");
    FieldsOfEntryLines("Firefox", "firefox %u", "firefox");
  }

  /** The standard entry: its name, its command without the `%u`, and its icon. */
  lemma StandardEntry()
    ensures DesktopEntry(FileOf(StandardFile), "/usr/share/applications/firefox.desktop")
      == Some(AppInfo("Firefox", "firefox", "firefox", "/usr/share/applications/firefox.desktop"))
  {
    StandardFilePlain();
    FileEntry(StandardFile, "/usr/share/applications/firefox.desktop");
    FieldsOfStandard();
    CleanFirefox();
  }

  /** An entry marked hidden in the test suite. */
  const HiddenFile := ["[Desktop Entry]", "Name=Secret", "Exec=secret", "NoDisplay=true"]

  lemma HiddenFilePlain()
    ensures forall k :: 0 <= k < |HiddenFile| ==> PlainLine(HiddenFile[k])
  {
  }

  lemma FieldsOfHidden()
    ensures Fields(HiddenFile + [""]).noDisplay
  {
    var ts := HiddenFile + [""];
    assert FirstHeader(ts) == 0;
    forall j | 1 <= j < 5 ensures !OtherSection(ts[j]) {
      NotSection(ts[j]);
    }
    SectionEndAt(ts, 1, 5);
    assert "NoDisplay=true" <= ts[3];
  }

  /** A `NoDisplay=true` line hides the entry even though it has a name and a command. */
  lemma HiddenEntry()
    ensures DesktopEntry(FileOf(HiddenFile), "/usr/share/applications/secret.desktop") == None
  {
    HiddenFilePlain();
    FileEntry(HiddenFile, "/usr/share/applications/secret.desktop");
    FieldsOfHidden();
  }

  /** An entry followed by a desktop action section in the test suite. */
  const ActionFile := ["[Desktop Entry]", "Name=Test", "Exec=test", "",
    "[Desktop Action NewWindow]", "Name=New Window", "Exec=test --new-window"]

  lemma ActionFilePlain()
    ensures forall k :: 0 <= k < |ActionFile| ==> PlainLine(ActionFile[k])
  {
  }

  lemma FieldsOfAction()
    ensures Fields(ActionFile + [""]) == Scan(true, "Test", "test", "", false)
  {
    var ts := ActionFile + [""];
    assert FirstHeader(ts) == 0;
    ActionSectionEnd();
    ActionValues();
    FieldsInRange(ts, 0, 4);
  }

  lemma ActionSectionEnd()
    ensures SectionEnd(ActionFile + [""], 1) == 4
  {
    var ts := ActionFile + [""];
    assert OtherSection(ts[4]);
    forall j | 1 <= j < 4 ensures !OtherSection(ts[j]) {
      NotSection(ts[j]);
    }
    SectionEndAt(ts, 1, 4);
  }

  lemma ActionValues()
    ensures LastValue(ActionFile + [""], 1, 4, "Name=") == "Test"
    ensures LastValue(ActionFile + [""], 1, 4, "Exec=") == "test"
    ensures LastValue(ActionFile + [""], 1, 4, "Icon=") == ""
    ensures !AnyStarts(ActionFile + [""], 1, 4, "NoDisplay=true")
  {
    var ts := ActionFile + [""];
    assert ts[1] == "Name=" + "Test" && ts[2] == "Exec=" + "test" && ts[3] == "";
    assert ts[1][0] == 'N' && ts[2][0] == 'E';
    assert LastValue(ts, 1, 2, "Name=") == "Test";
    assert LastValue(ts, 1, 3, "Name=") == "Test";
    assert LastValue(ts, 1, 4, "Name=") == "Test";
    assert LastValue(ts, 1, 4, "Exec=") == "test";
    assert LastValue(ts, 1, 4, "Icon=") == "";
    forall j | 1 <= j < 4 ensures !("NoDisplay=true" <= ts[j]) {
    }
  }

  /** The keys of a later section, here a desktop action, do not override the entry's own. */
  lemma OtherSectionIgnored()
    ensures DesktopEntry(FileOf(ActionFile), "/usr/share/applications/test.desktop")
      == Some(AppInfo("Test", "test", "", "/usr/share/applications/test.desktop"))
  {
    ActionFilePlain();
    FileEntry(ActionFile, "/usr/share/applications/test.desktop");
    FieldsOfAction();
    PlainCommand("test");
  }

  /** The command of the flatpak entry in the test suite, before its file-forwarding markers. */
  const FlatpakCommand := "/usr/bin/flatpak run" + " --branch=stable" + " --arch=x86_64" + " --command=anydesk"
    + " --file-forwarding" + " com.anydesk.Anydesk"

  /** The flatpak entry of the test suite. */
  const FlatpakFile := ["[Desktop Entry]", "Name=AnyDesk", "Exec=" + FlatpakCommand + " @@u %u @@",
    "Icon=com.anydesk.Anydesk", "Type=Application"]

  /** Neither a line break nor a field-code marker. */
  predicate Clean(s: string) {
    '\n' !in s && '%' !in s
  }

  lemma CleanConcat(a: string, b: string)
    requires Clean(a) && Clean(b)
    ensures Clean(a + b)
  {
  }

  lemma FlatpakPiece1() ensures Clean("/usr/bin/flatpak run") {}
  lemma FlatpakPiece2() ensures Clean(" --branch=stable") {}
  lemma FlatpakPiece3() ensures Clean(" --arch=x86_64") {}
  lemma FlatpakPiece4() ensures Clean(" --command=anydesk") {}
  lemma FlatpakPiece5() ensures Clean(" --file-forwarding") {}
  lemma FlatpakPiece6() ensures Clean(" com.anydesk.Anydesk") {}

  /** The flatpak command, piece by piece, has no line break and no field code. */
  lemma FlatpakCommandClean()
    ensures Clean(FlatpakCommand)
  {
    FlatpakPiece1(); FlatpakPiece2(); FlatpakPiece3(); FlatpakPiece4(); FlatpakPiece5(); FlatpakPiece6();
    var p2 := "/usr/bin/flatpak run" + " --branch=stable";
    var p3 := p2 + " --arch=x86_64";
    var p4 := p3 + " --command=anydesk";
    var p5 := p4 + " --file-forwarding";
    CleanConcat("/usr/bin/flatpak run", " --branch=stable");
    CleanConcat(p2, " --arch=x86_64");
    CleanConcat(p3, " --command=anydesk");
    CleanConcat(p4, " --file-forwarding");
    CleanConcat(p5, " com.anydesk.Anydesk");
  }

  lemma FlatpakExecPlain()
    ensures PlainLine("Exec=" + FlatpakCommand + " @@u %u @@")
  {
    var t := "Exec=" + FlatpakCommand + " @@u %u @@";
    FlatpakCommandClean();
    assert '\n' !in "Exec=" && '\n' !in " @@u %u @@";
    assert t[0] == 'E';
    assert t[|t| - 1] == '@';
  }

  lemma FlatpakFilePlain()
    ensures forall k :: 0 <= k < |FlatpakFile| ==> PlainLine(FlatpakFile[k])
  {
    FlatpakExecPlain();
    HeaderPlain();
    FlatpakNamePlain();
    FlatpakIconPlain();
    TypePlain();
    var e := "Exec=" + FlatpakCommand + " @@u %u @@";
    assert FlatpakFile == ["[Desktop Entry]", "Name=AnyDesk", e, "Icon=com.anydesk.Anydesk", "Type=Application"];
  }

  lemma HeaderPlain() ensures PlainLine("[Desktop Entry]") {}
  lemma FlatpakNamePlain() ensures PlainLine("Name=AnyDesk") {}
  lemma FlatpakIconPlain() ensures PlainLine("Icon=com.anydesk.Anydesk") {}
  lemma TypePlain() ensures PlainLine("Type=Application") {}

  lemma FieldsOfFlatpak()
    ensures Fields(FlatpakFile + [""]) == Scan(true, "AnyDesk", FlatpakCommand + " @@u %u @@", "com.anydesk.Anydesk", false)
  {
    assert "Name=" + "AnyDesk" == "Name=AnyDesk" && "Icon=" + "com.anydesk.Anydesk" == "Icon=com.anydesk.Anydesk";
    assert "Exec=" + FlatpakCommand + " @@u %u @@" == "Exec=" + (FlatpakCommand + " @@u %u @@");
    assert FlatpakFile + [""] == EntryLines("AnyDesk", FlatpakCommand + " @@u %u @@", "com.anydesk.Anydesk");
    FieldsOfEntryLines("AnyDesk", FlatpakCommand + " @@u %u @@", "com.anydesk.Anydesk");
  }

  lemma FlatpakHasNoCode()
    ensures '%' !in FlatpakCommand + " @@u "
  {
    FlatpakCommandClean();
    assert '%' !in " @@u ";
  }

  lemma StripFlatpak()
    ensures StripFieldCodes((FlatpakCommand + " @@u ") + ("%u" + " @@")) == (FlatpakCommand + " @@u ") + " @@"
  {
    var a, c := FlatpakCommand + " @@u ", " @@";
    FlatpakHasNoCode();
    StripWithoutPercent(a);
    StripWithoutPercent(c);
    StripFieldCodesConcat(a, "%u" + c);
    StripFieldCodesConcat("%u", c);
    assert StripFieldCodes("%u") == "";
  }

  lemma CleanFlatpak()
    ensures Trim(StripFieldCodes(FlatpakCommand + " @@u %u @@")) == FlatpakCommand + " @@u  @@"
  {
    var a, c := FlatpakCommand + " @@u ", " @@";
    assert FlatpakCommand + " @@u %u @@" == a + ("%u" + c);
    StripFlatpak();
    assert " @@u " + " @@" == " @@u  @@";
    assert a + c == FlatpakCommand + (" @@u " + " @@");
    TrimPlain(a + c);
  }

  /**
   * The flatpak entry keeps flatpak's `@@u`/`@@` file-forwarding markers
   * around the removed `%u`: only the field code itself is stripped, so the
   * command is not the bare `flatpak run ...` line.
   */
  lemma FlatpakEntryKeepsMarkers()
    ensures DesktopEntry(FileOf(FlatpakFile), "/var/lib/flatpak/exports/share/applications/com.anydesk.Anydesk.desktop")
      == Some(AppInfo("AnyDesk", FlatpakCommand + " @@u  @@", "com.anydesk.Anydesk",
        "/var/lib/flatpak/exports/share/applications/com.anydesk.Anydesk.desktop"))
    ensures FlatpakCommand + " @@u  @@" != FlatpakCommand
  {
    FlatpakFilePlain();
    FileEntry(FlatpakFile, "/var/lib/flatpak/exports/share/applications/com.anydesk.Anydesk.desktop");
    FieldsOfFlatpak();
    CleanFlatpak();
  }
}
