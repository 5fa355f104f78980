/** The proposal formatter: splits Markdown-ish proposal text into sections by its `#` headers,
    re-emits them in a preferred order, and derives a title and tags from the text. */
module Formatter {
  import opened Wrappers
  import opened PyStr
  import opened Dicts
  import opened Json
  import Records

  /** The number of `#` characters a line starts with. */
  function LeadingHashes(line: string): (h: nat)
    ensures h <= |line| && forall i :: 0 <= i < h ==> line[i] == '#'
    ensures h == |line| || line[h] != '#'
  {
    if |line| > 0 && line[0] == '#' then 1 + LeadingHashes(line[1..]) else 0
  }

  /** `re.match(r'^#{1,3}\s+', line)`: one to three `#` and then whitespace. With four or more
      `#` the pattern cannot back off onto whitespace, since `#` is not whitespace. */
  predicate IsHeader(line: string) {
    var h := LeadingHashes(line);
    1 <= h <= 3 && h < |line| && IsSpace(line[h])
  }

  /** `re.sub(r'^#{1,3}\s+', '', line).lower()`: the header text after the marks and the
      whitespace, lower-cased. */
  function HeaderName(line: string): string
    requires IsHeader(line)
  {
    Lower(LStrip(line[LeadingHashes(line)..]))
  }

  /** A line as `_identify_sections` sees it: a header with its section name, or text. */
  datatype Line = Header(name: string) | Text(text: string)

  function Classify(line: string): (l: Line)
    ensures l.Header? <==> IsHeader(line)
    ensures l.Text? ==> l.text == line
  {
    if IsHeader(line) then Header(HeaderName(line)) else Text(line)
  }

  /** The lines of the content, each classified. */
  function Classified(content: string): (ls: seq<Line>)
    ensures |ls| == |Split(content, '\n')|
  {
    var lines := Split(content, '\n');
    seq(|lines|, i requires 0 <= i < |lines| => Classify(lines[i]))
  }

  /** The texts of the lines `ls[a..b]`, all of them text lines. */
  function TextsFrom(ls: seq<Line>, a: nat, b: nat): (ts: seq<string>)
    requires a <= b <= |ls| && forall t :: a <= t < b ==> ls[t].Text?
    decreases b
  {
    if b == a then [] else TextsFrom(ls, a, b - 1) + [ls[b - 1].text]
  }

  /** The texts of text lines are the lines themselves. */
  lemma {:induction false} TextsFromLines(ls: seq<Line>, lines: seq<string>, n: nat)
    requires n <= |ls| && n <= |lines| && forall t :: 0 <= t < n ==> ls[t] == Text(lines[t])
    ensures TextsFrom(ls, 0, n) == lines[..n]
  {
    if n > 0 {
      TextsFromLines(ls, lines, n - 1);
      assert lines[..n] == lines[..n - 1] + [lines[n - 1]];
    }
  }

  /** The loop state of `_identify_sections`: the sections so far, the current section's name
      and its lines not yet saved. */
  datatype Scan = Scan(sections: Dict<string>, current: string, buffer: seq<string>)

  /** Saving the current section, when it has any line: `'\n'.join(lines).strip()` under its name,
      overwriting an earlier section of that name. */
  function Flush(s: Scan): Dict<string> {
    if s.buffer != [] then Put(s.sections, s.current, Strip(Join(s.buffer, "\n"))) else s.sections
  }

  /** One line of the loop: a header line saves the current section and opens a new one; any
      other line joins the current section. */
  function Step(s: Scan, l: Line): Scan {
    match l
    case Header(name) => Scan(Flush(s), name, [])
    case Text(t) => s.(buffer := s.buffer + [t])
  }

  /** The loop state after the first `n` lines. */
  function ScanLines(ls: seq<Line>, n: nat): Scan
    requires n <= |ls|
  {
    if n == 0 then Scan([], "main", []) else Step(ScanLines(ls, n - 1), ls[n - 1])
  }

  /** `_identify_sections(content)`. */
  function Sections(content: string): Dict<string> {
    var ls := Classified(content);
    Flush(ScanLines(ls, |ls|))
  }

  /** `_identify_sections(content)` as the source runs it: a loop over the lines with the current
      section and its lines as accumulators. */
  method IdentifySections(content: string) returns (sections: Dict<string>)
    ensures sections == Sections(content)
  {
    var lines := Split(content, '\n');
    ghost var ls := Classified(content);
    sections := [];
    var current := "main";
    var buffer: seq<string> := [];
    for i := 0 to |lines|
      invariant sections == ScanLines(ls, i).sections
      invariant current == ScanLines(ls, i).current
      invariant buffer == ScanLines(ls, i).buffer
    {
      var line := lines[i];
      assert ls[i] == Classify(line);
      if IsHeader(line) {
        if buffer != [] {
          sections := Put(sections, current, Strip(Join(buffer, "\n")));
          buffer := [];
        }
        current := HeaderName(line);
      } else {
        buffer := buffer + [line];
      }
    }
    if buffer != [] {
      sections := Put(sections, current, Strip(Join(buffer, "\n")));
    }
  }

  /** A run of lines `ls[a..b]` that makes the section `k` with text `v`: every line of it is
      text, it ends at a header or at the end, it starts the content (section "main") or follows
      the header that names it, and `v` is its lines joined and stripped. */
  ghost predicate Run(ls: seq<Line>, a: nat, b: nat, k: string, v: string) {
    && a < b <= |ls|
    && (forall t :: a <= t < b ==> ls[t].Text?)
    && (b == |ls| || ls[b].Header?)
    && (if a == 0 then k == "main" else ls[a - 1] == Header(k))
    && v == Strip(Join(TextsFrom(ls, a, b), "\n"))
  }

  /** What holds of the loop state after `n` lines: the buffer is the lines since the last header
      (or since the start), the current name is that header's, and every saved section is a run
      ending before line `n`. */
  ghost predicate ScanInv(ls: seq<Line>, n: nat, s: Scan)
    requires n <= |ls|
  {
    var a := n - |s.buffer|;
    && |s.buffer| <= n
    && (forall t :: a <= t < n ==> ls[t].Text?)
    && s.buffer == TextsFrom(ls, a, n)
    && (a == 0 ==> s.current == "main")
    && (a > 0 ==> ls[a - 1] == Header(s.current))
    && DistinctKeys(s.sections)
    && (s.sections != [] ==> exists t :: 0 <= t < n && ls[t].Header?)
    && (forall e :: e in s.sections ==> exists a': nat, b': nat :: b' < n && Run(ls, a', b', e.0, e.1))
  }

  lemma HeaderStepInv(ls: seq<Line>, n: nat, s: Scan, name: string)
    requires 0 < n <= |ls| && ls[n - 1] == Header(name) && ScanInv(ls, n - 1, s)
    ensures ScanInv(ls, n, Scan(Flush(s), name, []))
  {
    var a := n - 1 - |s.buffer|;
    var r := Flush(s);
    if s.buffer != [] {
      var v := Strip(Join(s.buffer, "\n"));
      PutDistinct(s.sections, s.current, v);
      BufferRun(ls, n, s);
      forall e | e in r ensures exists a': nat, b': nat :: b' < n && Run(ls, a', b', e.0, e.1) {
        PutEntry(s.sections, s.current, v, e);
      }
    }
  }

  /** At a header, the buffered lines form the current section's run. */
  lemma BufferRun(ls: seq<Line>, n: nat, s: Scan)
    requires 0 < n <= |ls| && ls[n - 1].Header? && ScanInv(ls, n - 1, s) && s.buffer != []
    ensures Run(ls, n - 1 - |s.buffer|, n - 1, s.current, Strip(Join(s.buffer, "\n")))
  {
    var a := n - 1 - |s.buffer|;
    assert a < n - 1 <= |ls|;
    assert forall t :: a <= t < n - 1 ==> ls[t].Text?;
    assert a == 0 ==> s.current == "main";
    assert a > 0 ==> ls[a - 1] == Header(s.current);
  }

  lemma TextStepInv(ls: seq<Line>, n: nat, s: Scan, t: string)
    requires 0 < n <= |ls| && ls[n - 1] == Text(t) && ScanInv(ls, n - 1, s)
    ensures ScanInv(ls, n, s.(buffer := s.buffer + [t]))
  {
  }

  lemma {:induction false} ScanLinesInv(ls: seq<Line>, n: nat)
    requires n <= |ls|
    ensures ScanInv(ls, n, ScanLines(ls, n))
  {
    if n > 0 {
      ScanLinesInv(ls, n - 1);
      var s := ScanLines(ls, n - 1);
      match ls[n - 1]
      case Header(name) => HeaderStepInv(ls, n, s, name);
      case Text(t) => TextStepInv(ls, n, s, t);
    }
  }

  /** Every section `_identify_sections` finds is a maximal run of text lines, named "main" when
      it opens the content and by the lower-cased text of the header before it otherwise; no
      name occurs twice. */
  lemma SectionsAreRuns(content: string)
    ensures DistinctKeys(Sections(content))
    ensures forall e :: e in Sections(content) ==>
      exists a: nat, b: nat :: Run(Classified(content), a, b, e.0, e.1)
  {
    var ls := Classified(content);
    var n := |ls|;
    ScanLinesInv(ls, n);
    var s := ScanLines(ls, n);
    if s.buffer != [] {
      var v := Strip(Join(s.buffer, "\n"));
      PutDistinct(s.sections, s.current, v);
      assert Run(ls, n - |s.buffer|, n, s.current, v);
      forall e | e in Sections(content) ensures exists a: nat, b: nat :: Run(ls, a, b, e.0, e.1) {
        PutEntry(s.sections, s.current, v, e);
      }
    }
  }

  /** No run of section `k` that ends before line `n` starts after line `a`. */
  ghost predicate LastRunBefore(ls: seq<Line>, a: nat, n: nat, k: string) {
    forall a': nat, b': nat, v' :: Run(ls, a', b', k, v') && b' < n ==> a' <= a
  }

  /** Every section whose last run ends before line `n` is saved with that run's text. */
  ghost predicate SavedRuns(ls: seq<Line>, n: nat, sections: Dict<string>) {
    forall a: nat, b: nat, k, v :: Run(ls, a, b, k, v) && b < n && LastRunBefore(ls, a, n, k) ==>
      Get(sections, k) == Some(v)
  }

  /** Where a run ends determines the whole run. */
  lemma RunOfEnd(ls: seq<Line>, a: nat, b: nat, k: string, v: string, a2: nat, k2: string, v2: string)
    requires Run(ls, a, b, k, v) && Run(ls, a2, b, k2, v2)
    ensures a == a2 && k == k2 && v == v2
  {
    if a > 0 {
      assert ls[a - 1].Header?;
    }
    if a2 > 0 {
      assert ls[a2 - 1].Header?;
    }
  }

  /** With nothing buffered, no run ends at line `m`: the line before it is a header. */
  lemma NoRunAtEmptyBuffer(ls: seq<Line>, m: nat, s: Scan)
    requires m <= |ls| && ScanInv(ls, m, s) && s.buffer == []
    ensures forall a: nat, k, v :: !Run(ls, a, m, k, v)
  {
    if m > 0 {
      assert ls[m - 1].Header?;
    }
  }

  /** At a header or at the end, saving the current section keeps every last run saved, now
      including the run that closes here. */
  lemma FlushSavesRuns(ls: seq<Line>, m: nat, s: Scan)
    requires m <= |ls| && (m == |ls| || ls[m].Header?)
    requires ScanInv(ls, m, s) && SavedRuns(ls, m, s.sections)
    ensures SavedRuns(ls, m + 1, Flush(s))
  {
    var a0 := m - |s.buffer|;
    var bufv := Strip(Join(s.buffer, "\n"));
    if s.buffer != [] {
      assert Run(ls, a0, m, s.current, bufv);
    } else {
      NoRunAtEmptyBuffer(ls, m, s);
    }
    forall a: nat, b: nat, k, v | Run(ls, a, b, k, v) && b < m + 1 && LastRunBefore(ls, a, m + 1, k)
      ensures Get(Flush(s), k) == Some(v)
    {
      if b == m {
        RunOfEnd(ls, a, m, k, v, a0, s.current, bufv);
        PutGet(s.sections, s.current, bufv, k);
      } else {
        assert LastRunBefore(ls, a, m, k);
        if s.buffer != [] {
          assert ls[b].Header? && b < a0;
          assert k != s.current;
          PutGet(s.sections, s.current, bufv, k);
        }
      }
    }
  }

  /** A text line closes no run, so the saved runs stay saved. */
  lemma TextSavesRuns(ls: seq<Line>, n: nat, sections: Dict<string>)
    requires 0 < n <= |ls| && ls[n - 1].Text? && SavedRuns(ls, n - 1, sections)
    ensures SavedRuns(ls, n, sections)
  {
    forall a: nat, b: nat, k, v | Run(ls, a, b, k, v) && b < n && LastRunBefore(ls, a, n, k)
      ensures Get(sections, k) == Some(v)
    {
      assert b != n - 1;
      assert LastRunBefore(ls, a, n - 1, k);
    }
  }

  lemma {:induction false} ScanLinesSavesRuns(ls: seq<Line>, n: nat)
    requires n <= |ls|
    ensures SavedRuns(ls, n, ScanLines(ls, n).sections)
  {
    if n > 0 {
      ScanLinesSavesRuns(ls, n - 1);
      var s := ScanLines(ls, n - 1);
      if ls[n - 1].Header? {
        assert ScanLines(ls, n).sections == Flush(s);
        ScanLinesInv(ls, n - 1);
        FlushSavesRuns(ls, n - 1, s);
      } else {
        assert ScanLines(ls, n).sections == s.sections;
        TextSavesRuns(ls, n, s.sections);
      }
    }
  }

  /** Every run of text lines that makes a section is found: the section of its name holds the
      text of the last run of that name, since a later header of the same name overwrites an
      earlier one. */
  lemma SectionsComplete(content: string)
    ensures var ls := Classified(content);
      forall a: nat, b: nat, k, v :: Run(ls, a, b, k, v) && (forall a': nat, b': nat, v' :: Run(ls, a', b', k, v') ==> a' <= a) ==>
        Get(Sections(content), k) == Some(v)
  {
    var ls := Classified(content);
    forall a: nat, b: nat, k, v | Run(ls, a, b, k, v) && (forall a': nat, b': nat, v' :: Run(ls, a', b', k, v') ==> a' <= a)
      ensures Get(Sections(content), k) == Some(v)
    {
      LastRunSaved(content, a, b, k, v);
    }
  }

  /** The last run of a name is the section of that name. */
  lemma LastRunSaved(content: string, a: nat, b: nat, k: string, v: string)
    requires Run(Classified(content), a, b, k, v)
    requires forall a': nat, b': nat, v' :: Run(Classified(content), a', b', k, v') ==> a' <= a
    ensures Get(Sections(content), k) == Some(v)
  {
    var ls := Classified(content);
    ScanLinesInv(ls, |ls|);
    ScanLinesSavesRuns(ls, |ls|);
    FlushSavesRuns(ls, |ls|, ScanLines(ls, |ls|));
  }

  /** Every run has a last run of the same name at or after it. */
  lemma {:induction false} LastRunExists(ls: seq<Line>, a: nat, b: nat, k: string, v: string)
    requires Run(ls, a, b, k, v)
    ensures exists a2: nat, b2: nat, v2 :: (Run(ls, a2, b2, k, v2) &&
      forall a': nat, b': nat, v' :: Run(ls, a', b', k, v') ==> a' <= a2)
    decreases |ls| - a
  {
    if !forall a': nat, b': nat, v' :: Run(ls, a', b', k, v') ==> a' <= a {
      var a': nat, b': nat, v' :| Run(ls, a', b', k, v') && a' > a;
      LastRunExists(ls, a', b', k, v');
    }
  }

  /** Hence every run's section name is a key of the result. */
  lemma RunNamesAreKeys(content: string, a: nat, b: nat, k: string, v: string)
    requires Run(Classified(content), a, b, k, v)
    ensures Get(Sections(content), k).Some?
  {
    var ls := Classified(content);
    LastRunExists(ls, a, b, k, v);
    var a2: nat, b2: nat, v2 :| Run(ls, a2, b2, k, v2) &&
      forall a': nat, b': nat, v' :: Run(ls, a', b', k, v') ==> a' <= a2;
    LastRunSaved(content, a2, b2, k, v2);
  }

  /** Content without header lines is one section, "main", holding the stripped content. */
  lemma SectionsWithoutHeaders(content: string)
    requires forall i :: 0 <= i < |Split(content, '\n')| ==> !IsHeader(Split(content, '\n')[i])
    ensures Sections(content) == [("main", Strip(content))]
  {
    var lines := Split(content, '\n');
    var ls := Classified(content);
    var n := |ls|;
    ScanLinesInv(ls, n);
    var s := ScanLines(ls, n);
    assert forall t :: 0 <= t < n ==> ls[t] == Text(lines[t]);
    assert s.sections == [];
    TextsFromLines(ls, lines, n);
    assert lines[..n] == lines;
    assert s.buffer == lines;
    JoinSplit(content, '\n');
  }

  /** `priority_sections` as `(keyword, title)`: the section key of each triple is never read,
      and no keyword group holds a `|`, so each group is its one keyword. */
  const Priorities: seq<(string, string)> :=
    [("背景", "背景"), ("目标", "目标"), ("内容", "主要内容"), ("建议", "建议"), ("分析", "分析"),
     ("结论", "结论")]

  /** The first section, in dict order, whose name contains `keyword`. */
  function FirstMatch(d: Dict<string>, keyword: string): (r: Option<nat>)
    ensures r.Some? ==> r.value < |d| && Contains(d[r.value].0, keyword)
    ensures r.Some? ==> forall j :: 0 <= j < r.value ==> !Contains(d[j].0, keyword)
    ensures r.None? ==> forall j :: 0 <= j < |d| ==> !Contains(d[j].0, keyword)
  {
    if |d| == 0 then None
    else if Contains(d[0].0, keyword) then Some(0)
    else
      match FirstMatch(d[1..], keyword)
      case None => None
      case Some(i) => Some(i + 1)
  }

  /** The state of `_format_sections` while it consumes `sections`: the parts emitted so far,
      each with the name of the section it came from; the names of matched sections dropped for
      their empty text; and the sections not yet consumed. */
  datatype Pass = Pass(emitted: Dict<string>, dropped: seq<string>, remaining: Dict<string>)

  /** `"main"` first, without a heading, and deleted from the sections. */
  function StartPass(sections: Dict<string>): Pass {
    if HasKey(sections, "main") then Pass([("main", Get(sections, "main").value)], [], Remove(sections, "main"))
    else Pass([], [], sections)
  }

  /** One priority section: the first remaining section whose name contains the keyword is
      deleted, and emitted under the priority title when its text is non-empty. */
  function PriorityStep(p: Pass, keyword: string, title: string): Pass {
    match FirstMatch(p.remaining, keyword)
    case None => p
    case Some(i) =>
      var (k, v) := p.remaining[i];
      var rest := Remove(p.remaining, k);
      if v != "" then Pass(p.emitted + [(k, "## " + title + "\n\n" + v)], p.dropped, rest)
      else Pass(p.emitted, p.dropped + [k], rest)
  }

  /** The state after the first `n` priority sections. */
  function PriorityPass(sections: Dict<string>, n: nat): Pass
    requires n <= |Priorities|
  {
    if n == 0 then StartPass(sections)
    else PriorityStep(PriorityPass(sections, n - 1), Priorities[n - 1].0, Priorities[n - 1].1)
  }

  /** The sections no priority matched, in dict order, under their capitalised names. */
  function Leftovers(d: Dict<string>): (r: Dict<string>)
    ensures |r| == |d| && forall i :: 0 <= i < |d| ==> r[i] == (d[i].0, "## " + Capitalize(d[i].0) + "\n\n" + d[i].1)
  {
    seq(|d|, i requires 0 <= i < |d| => (d[i].0, "## " + Capitalize(d[i].0) + "\n\n" + d[i].1))
  }

  /** Every part `_format_sections` emits, in order, with the section it came from. */
  function Emitted(sections: Dict<string>): Dict<string> {
    var p := PriorityPass(sections, |Priorities|);
    p.emitted + Leftovers(p.remaining)
  }

  /** The matched sections `_format_sections` drops for their empty text. */
  function Dropped(sections: Dict<string>): seq<string> {
    PriorityPass(sections, |Priorities|).dropped
  }

  /** `_format_sections(sections)`: the emitted parts joined by blank lines. */
  function FormattedSections(sections: Dict<string>): string {
    Join(Values(Emitted(sections)), "\n\n")
  }

  /** In a dict, an entry's value is what looking up its key finds. */
  lemma EntryGet(d: Dict<string>, e: (string, string))
    requires DistinctKeys(d) && e in d
    ensures Get(d, e.0) == Some(e.1)
  {
    var i :| 0 <= i < |d| && d[i] == e;
    GetAt(d, i);
  }

  /** Every section of the input is emitted, dropped or still remaining, exactly once. */
  ghost predicate Accounted(sections: Dict<string>, p: Pass) {
    multiset(Keys(p.emitted)) + multiset(p.dropped) + multiset(Keys(p.remaining)) == multiset(Keys(sections))
  }

  /** The remaining sections are sections of the input, each name once. */
  ghost predicate Within(sections: Dict<string>, p: Pass) {
    && DistinctKeys(p.remaining)
    && forall e :: e in p.remaining ==> Get(sections, e.0) == Some(e.1)
  }

  /** A dropped section had empty text; an emitted part ends with its section's text. */
  ghost predicate Traced(sections: Dict<string>, p: Pass) {
    && (forall k :: k in p.dropped ==> Get(sections, k) == Some(""))
    && (forall e :: e in p.emitted ==> Get(sections, e.0).Some? && EndsWith(e.1, Get(sections, e.0).value))
  }

  /** The invariant of `_format_sections`' consumption of the sections. */
  ghost predicate PassInv(sections: Dict<string>, p: Pass) {
    Accounted(sections, p) && Within(sections, p) && Traced(sections, p)
  }

  /** Appending an entry appends its name to the names. */
  lemma AppendKeys(d: Dict<string>, k: string, v: string)
    ensures multiset(Keys(d + [(k, v)])) == multiset(Keys(d)) + multiset{k}
  {
    assert Keys(d + [(k, v)]) == Keys(d) + [k];
  }

  /** Every entry of a dict is what looking up its name finds. */
  lemma EntriesGet(d: Dict<string>)
    requires DistinctKeys(d)
    ensures forall e :: e in d ==> Get(d, e.0) == Some(e.1)
  {
    forall e | e in d ensures Get(d, e.0) == Some(e.1) {
      EntryGet(d, e);
    }
  }

  lemma StartPassInv(sections: Dict<string>)
    requires DistinctKeys(sections)
    ensures PassInv(sections, StartPass(sections))
  {
    StartAccounted(sections);
    StartWithin(sections);
  }

  lemma StartAccounted(sections: Dict<string>)
    ensures Accounted(sections, StartPass(sections))
  {
    if HasKey(sections, "main") {
      AppendKeys([], "main", Get(sections, "main").value);
      RemoveMultiset(sections, "main");
    }
  }

  lemma StartWithin(sections: Dict<string>)
    requires DistinctKeys(sections)
    ensures Within(sections, StartPass(sections))
  {
    EntriesGet(sections);
    if HasKey(sections, "main") {
      var r := Remove(sections, "main");
      RemoveKeys(sections, "main");
      forall e | e in r ensures Get(sections, e.0) == Some(e.1) {
        RemoveEntry(sections, "main", e);
      }
    }
  }

  /** Deleting the `i`-th remaining section takes its name out once. */
  lemma TakeKeys(remaining: Dict<string>, i: nat)
    requires DistinctKeys(remaining) && i < |remaining|
    ensures multiset(Keys(Remove(remaining, remaining[i].0))) + multiset{remaining[i].0} == multiset(Keys(remaining))
    ensures DistinctKeys(Remove(remaining, remaining[i].0))
  {
    assert HasKey(remaining, remaining[i].0) by {
      assert Keys(remaining)[i] == remaining[i].0;
    }
    RemoveMultiset(remaining, remaining[i].0);
    RemoveKeys(remaining, remaining[i].0);
  }

  /** The sections left after deleting one remaining section are still input sections. */
  lemma TakeWithin(sections: Dict<string>, p: Pass, i: nat)
    requires Within(sections, p) && i < |p.remaining|
    ensures forall e :: e in Remove(p.remaining, p.remaining[i].0) ==> Get(sections, e.0) == Some(e.1)
  {
    forall e | e in Remove(p.remaining, p.remaining[i].0) ensures Get(sections, e.0) == Some(e.1) {
      RemoveEntry(p.remaining, p.remaining[i].0, e);
    }
  }

  /** Moving one name from the remaining sections to the emitted or dropped ones keeps the count. */
  lemma MoveOne(emitted: multiset<string>, dropped: multiset<string>, rest: multiset<string>,
                all: multiset<string>, k: string)
    requires emitted + dropped + (rest + multiset{k}) == all
    ensures (emitted + multiset{k}) + dropped + rest == all
    ensures emitted + (dropped + multiset{k}) + rest == all
  {
  }

  /** Emitting the `i`-th remaining section as `part` keeps the count. */
  lemma EmitAccounted(sections: Dict<string>, p: Pass, i: nat, part: string)
    requires Accounted(sections, p) && DistinctKeys(p.remaining) && i < |p.remaining|
    ensures Accounted(sections, Pass(p.emitted + [(p.remaining[i].0, part)], p.dropped,
                                     Remove(p.remaining, p.remaining[i].0)))
  {
    var k := p.remaining[i].0;
    TakeKeys(p.remaining, i);
    AppendKeys(p.emitted, k, part);
    MoveOne(multiset(Keys(p.emitted)), multiset(p.dropped), multiset(Keys(Remove(p.remaining, k))),
            multiset(Keys(sections)), k);
  }

  /** Dropping the `i`-th remaining section keeps the count. */
  lemma DropAccounted(sections: Dict<string>, p: Pass, i: nat)
    requires Accounted(sections, p) && DistinctKeys(p.remaining) && i < |p.remaining|
    ensures Accounted(sections, Pass(p.emitted, p.dropped + [p.remaining[i].0],
                                     Remove(p.remaining, p.remaining[i].0)))
  {
    var k := p.remaining[i].0;
    TakeKeys(p.remaining, i);
    assert multiset(p.dropped + [k]) == multiset(p.dropped) + multiset{k};
    MoveOne(multiset(Keys(p.emitted)), multiset(p.dropped), multiset(Keys(Remove(p.remaining, k))),
            multiset(Keys(sections)), k);
  }

  lemma PriorityStepAccounted(sections: Dict<string>, p: Pass, keyword: string, title: string)
    requires Accounted(sections, p) && DistinctKeys(p.remaining)
    ensures Accounted(sections, PriorityStep(p, keyword, title))
  {
    match FirstMatch(p.remaining, keyword)
    case None =>
    case Some(i) =>
      var v := p.remaining[i].1;
      if v != "" {
        EmitAccounted(sections, p, i, "## " + title + "\n\n" + v);
      } else {
        DropAccounted(sections, p, i);
      }
  }

  lemma PriorityStepWithin(sections: Dict<string>, p: Pass, keyword: string, title: string)
    requires Within(sections, p)
    ensures Within(sections, PriorityStep(p, keyword, title))
  {
    match FirstMatch(p.remaining, keyword)
    case None =>
    case Some(i) =>
      TakeKeys(p.remaining, i);
      TakeWithin(sections, p, i);
  }

  lemma PriorityStepTraced(sections: Dict<string>, p: Pass, keyword: string, title: string)
    requires Within(sections, p) && Traced(sections, p)
    ensures Traced(sections, PriorityStep(p, keyword, title))
  {
    match FirstMatch(p.remaining, keyword)
    case None =>
    case Some(i) =>
      var (k, v) := p.remaining[i];
      assert Get(sections, k) == Some(v) by {
        assert p.remaining[i] in p.remaining;
      }
      if v != "" {
        var part := "## " + title + "\n\n" + v;
        assert EndsWith(part, v);
        forall e | e in p.emitted + [(k, part)] ensures Get(sections, e.0).Some? && EndsWith(e.1, Get(sections, e.0).value) {
          if e != (k, part) {
            assert e in p.emitted;
          }
        }
      }
  }

  lemma {:induction false} PriorityPassInv(sections: Dict<string>, n: nat)
    requires DistinctKeys(sections) && n <= |Priorities|
    ensures PassInv(sections, PriorityPass(sections, n))
  {
    if n == 0 {
      StartPassInv(sections);
    } else {
      PriorityPassInv(sections, n - 1);
      var p := PriorityPass(sections, n - 1);
      var (keyword, title) := Priorities[n - 1];
      PriorityStepAccounted(sections, p, keyword, title);
      PriorityStepWithin(sections, p, keyword, title);
      PriorityStepTraced(sections, p, keyword, title);
    }
  }

  /** A dict holds each key once. */
  lemma {:induction false} DistinctKeysOnce(d: Dict<string>, k: string)
    requires DistinctKeys(d)
    ensures multiset(Keys(d))[k] <= 1
  {
    if |d| > 0 {
      assert Keys(d) == [d[0].0] + Keys(d[1..]);
      assert DistinctKeys(d[1..]);
      DistinctKeysOnce(d[1..], k);
      if d[0].0 == k {
        assert k !in Keys(d[1..]);
      }
    }
  }

  /** `_format_sections` accounts for every section exactly once: each is emitted or, being a
      priority match with empty text, dropped, and none is emitted twice. */
  lemma FormattedSectionsAccount(sections: Dict<string>)
    requires DistinctKeys(sections)
    ensures multiset(Keys(Emitted(sections))) + multiset(Dropped(sections)) == multiset(Keys(sections))
    ensures forall k :: multiset(Keys(Emitted(sections)))[k] <= 1
  {
    var p := PriorityPass(sections, |Priorities|);
    PriorityPassInv(sections, |Priorities|);
    EmittedKeys(sections);
    var emitted, all := multiset(Keys(Emitted(sections))), multiset(Keys(sections));
    assert emitted + multiset(p.dropped) == all;
    forall k ensures emitted[k] <= 1 {
      DistinctKeysOnce(sections, k);
      assert emitted[k] <= all[k];
    }
  }

  /** The parts emitted name the sections emitted by priority and then the ones left over. */
  lemma EmittedKeys(sections: Dict<string>)
    ensures var p := PriorityPass(sections, |Priorities|);
      multiset(Keys(Emitted(sections))) == multiset(Keys(p.emitted)) + multiset(Keys(p.remaining))
  {
    PassKeys(PriorityPass(sections, |Priorities|));
  }

  /** The keys of a pass's emitted parts followed by its leftovers. */
  lemma PassKeys(p: Pass)
    ensures multiset(Keys(p.emitted + Leftovers(p.remaining))) == multiset(Keys(p.emitted)) + multiset(Keys(p.remaining))
  {
    var left := Leftovers(p.remaining);
    assert Keys(left) == Keys(p.remaining);
    assert Keys(p.emitted + left) == Keys(p.emitted) + Keys(left);
  }

  /** A section `_format_sections` drops had empty text; every part it emits ends with the text
      of the section it came from. */
  lemma FormattedSectionsTraced(sections: Dict<string>)
    requires DistinctKeys(sections)
    ensures forall k :: k in Dropped(sections) ==> Get(sections, k) == Some("")
    ensures forall e :: e in Emitted(sections) ==>
      Get(sections, e.0).Some? && EndsWith(e.1, Get(sections, e.0).value)
  {
    var p := PriorityPass(sections, |Priorities|);
    PriorityPassInv(sections, |Priorities|);
    var left := Leftovers(p.remaining);
    forall e | e in Emitted(sections) ensures Get(sections, e.0).Some? && EndsWith(e.1, Get(sections, e.0).value) {
      if e !in p.emitted {
        var i :| 0 <= i < |left| && left[i] == e;
        assert p.remaining[i] in p.remaining;
      }
    }
  }

  /** "main", when present, is emitted first and bare. */
  lemma FormattedSectionsMainFirst(sections: Dict<string>)
    requires HasKey(sections, "main")
    ensures |Emitted(sections)| >= 1 && Emitted(sections)[0] == ("main", Get(sections, "main").value)
  {
    PrefixStays(sections, |Priorities|);
  }

  /** Priority steps only append to the emitted parts. */
  lemma {:induction false} PrefixStays(sections: Dict<string>, n: nat)
    requires n <= |Priorities| && HasKey(sections, "main")
    ensures |PriorityPass(sections, n).emitted| >= 1
    ensures PriorityPass(sections, n).emitted[0] == ("main", Get(sections, "main").value)
  {
    if n > 0 {
      PrefixStays(sections, n - 1);
    }
  }
  /** The inner search of `_format_sections`: the first remaining section, in dict order, whose
      name contains the keyword, deleted from the sections and its text returned. */
  method TakeFirst(remaining: Dict<string>, keyword: string) returns (found: Option<string>, rest: Dict<string>)
    ensures FirstMatch(remaining, keyword).None? ==> found == None && rest == remaining
    ensures FirstMatch(remaining, keyword).Some? ==>
      var i := FirstMatch(remaining, keyword).value;
      found == Some(remaining[i].1) && rest == Remove(remaining, remaining[i].0)
  {
    for j := 0 to |remaining|
      invariant forall t :: 0 <= t < j ==> !Contains(remaining[t].0, keyword)
    {
      if Contains(remaining[j].0, keyword) {
        return Some(remaining[j].1), Remove(remaining, remaining[j].0);
      }
    }
    return None, remaining;
  }

  /** Appending an entry appends its value to the values. */
  lemma ValuesAppend(d: Dict<string>, k: string, v: string)
    ensures Values(d + [(k, v)]) == Values(d) + [v]
  {
  }

  /** One round of the priority loop of `_format_sections` on the parts and sections so far. */
  method PriorityRound(ghost p: Pass, parts: seq<string>, remaining: Dict<string>, keyword: string, title: string)
    returns (parts': seq<string>, remaining': Dict<string>)
    requires parts == Values(p.emitted) && remaining == p.remaining
    ensures parts' == Values(PriorityStep(p, keyword, title).emitted)
    ensures remaining' == PriorityStep(p, keyword, title).remaining
  {
    var found;
    found, remaining' := TakeFirst(remaining, keyword);
    parts' := parts;
    if found.Some? && found.value != "" {
      var part := "## " + title + "\n\n" + found.value;
      ValuesAppend(p.emitted, p.remaining[FirstMatch(p.remaining, keyword).value].0, part);
      parts' := parts + [part];
    }
  }

  /** The last loop of `_format_sections`: every section left, under its capitalised name. */
  method AppendLeftovers(ghost emitted: Dict<string>, parts: seq<string>, remaining: Dict<string>)
    returns (parts': seq<string>)
    requires parts == Values(emitted)
    ensures parts' == Values(emitted + Leftovers(remaining))
  {
    parts' := parts;
    for i := 0 to |remaining|
      invariant parts' == Values(emitted + Leftovers(remaining)[..i])
    {
      var (k, v) := remaining[i];
      var part := "## " + Capitalize(k) + "\n\n" + v;
      assert emitted + Leftovers(remaining)[..i + 1] == (emitted + Leftovers(remaining)[..i]) + [(k, part)];
      ValuesAppend(emitted + Leftovers(remaining)[..i], k, part);
      parts' := parts' + [part];
    }
    assert Leftovers(remaining)[..|remaining|] == Leftovers(remaining);
  }

  /** `_format_sections(sections)` as the source runs it: "main" first, then the priority
      sections, then what is left, the parts joined by blank lines. */
  method FormatSections(sections: Dict<string>) returns (text: string)
    ensures text == FormattedSections(sections)
  {
    var parts: seq<string> := [];
    var remaining := sections;
    if HasKey(remaining, "main") {
      parts := [Get(remaining, "main").value];
      remaining := Remove(remaining, "main");
    }
    for n := 0 to |Priorities|
      invariant parts == Values(PriorityPass(sections, n).emitted)
      invariant remaining == PriorityPass(sections, n).remaining
    {
      parts, remaining := PriorityRound(PriorityPass(sections, n), parts, remaining, Priorities[n].0, Priorities[n].1);
    }
    parts := AppendLeftovers(PriorityPass(sections, |Priorities|).emitted, parts, remaining);
    text := Join(parts, "\n\n");
  }
  /** `re.search(r'^#\s+(.+)$', ...)` tried where `s` begins, at a line start (MULTILINE): a `#`,
      then the longest whitespace run, which may cross line ends, then `(.+)` to the end of that
      line. When the run reaches the end of the text the engine backs off: `(.+)` takes one
      whitespace character of the run that is not a line end, so the group strips to ""; with
      no such character there is no match here. The result is `group(1).strip()`. */
  function HeadingAt(s: string): Option<string> {
    if |s| < 2 || s[0] != '#' || !IsSpace(s[1]) then None
    else
      var rest := LStrip(s[1..]);
      if rest != [] then Some(Strip(Split(rest, '\n')[0]))
      else if exists j :: 2 <= j < |s| && s[j] != '\n' then Some("")
      else None
  }

  /** The text after the first line end, if there is one. */
  function AfterLineEnd(s: string): (r: Option<string>)
    ensures r.Some? ==> |r.value| < |s|
  {
    if |s| == 0 then None else if s[0] == '\n' then Some(s[1..]) else AfterLineEnd(s[1..])
  }

  /** The search over the line starts of `s`, first to last. */
  function SearchHeading(s: string): Option<string>
    decreases |s|
  {
    match HeadingAt(s)
    case Some(t) => Some(t)
    case None =>
      match AfterLineEnd(s)
      case None => None
      case Some(next) => SearchHeading(next)
  }

  /** `_extract_title(content)`: the text of the first `# ` heading; otherwise the first line of
      the stripped content, stripped and cut to 50 characters. (`split` never gives an empty
      list, so the source's "提案" fallback cannot be reached.) */
  function ExtractTitle(content: string): (r: string)
    ensures SearchHeading(content).Some? ==> r == SearchHeading(content).value
    ensures SearchHeading(content).None? ==>
      var first := Strip(Split(Strip(content), '\n')[0]);
      |r| == (if |first| <= 50 then |first| else 50) && r == first[..|r|]
  {
    match SearchHeading(content)
    case Some(t) => t
    case None =>
      var first := Strip(Split(Strip(content), '\n')[0]);
      if |first| <= 50 then first else first[..50]
  }

  /** A text opening with a `# ` heading line has that line's text, stripped, as its title. */
  lemma HeadingTitle(t: string, z: string)
    requires LStrip(t) != [] && '\n' !in t && (z == [] || z[0] == '\n')
    ensures SearchHeading("# " + t + z) == Some(Strip(t))
  {
    var s := "# " + t + z;
    var l := LStrip(t);
    AfterMark(t, z);
    assert '\n' !in l by {
      assert l == t[|t| - |l|..];
    }
    FirstLine(l, z);
    assert Strip(l) == Strip(t) by {
      assert LStrip(l) == l;
    }
    HeadingAtGreedy(s);
  }

  /** After `# `, `lstrip` skips to the first non-blank character of the heading text. */
  lemma AfterMark(t: string, z: string)
    requires LStrip(t) != []
    ensures |"# " + t + z| >= 2 && LStrip(("# " + t + z)[1..]) == LStrip(t) + z
  {
    var x := t + z;
    MarkTail(t, z);
    SpaceSkipped(x);
    LStripAppend(t, z);
  }

  /** What follows the `#` is a blank and the heading text. */
  lemma MarkTail(t: string, z: string)
    ensures |"# " + t + z| >= 2 && ("# " + t + z)[1..] == [' '] + (t + z)
  {
  }

  /** A leading blank is skipped by `lstrip`. */
  lemma SpaceSkipped(x: string)
    ensures LStrip([' '] + x) == LStrip(x)
  {
    assert ([' '] + x)[1..] == x;
  }

  /** The first piece of a text split at line ends is its first line. */
  lemma FirstLine(l: string, z: string)
    requires '\n' !in l && (z == [] || z[0] == '\n')
    ensures Split(l + z, '\n')[0] == l
  {
    if z == [] {
      assert l + z == l;
      SplitNoSeparator(l, '\n');
    } else {
      assert z == ['\n'] + z[1..];
      assert l + z == l + ['\n'] + z[1..];
      SplitAtFirst(l, '\n', z[1..]);
    }
  }

  /** Where the whitespace run stops before the end, the heading is the rest of that line. */
  lemma HeadingAtGreedy(s: string)
    requires |s| >= 2 && s[0] == '#' && IsSpace(s[1]) && LStrip(s[1..]) != []
    ensures HeadingAt(s) == Some(Strip(Split(LStrip(s[1..]), '\n')[0]))
    ensures SearchHeading(s) == HeadingAt(s)
  {
  }

  /** The keyword groups of `_extract_tags` and their tags, in the dict's order. */
  const TagGroups: seq<(string, string)> :=
    [("预算|资金|费用", "财务"), ("社区|居民", "社区"), ("环境|绿色", "环保"), ("教育|学习", "教育"),
     ("安全|保障", "安全"), ("设施|建设", "基础设施"), ("活动|文化", "活动")]

  /** The tag given when no keyword occurs. */
  const DefaultTag: string := "一般"

  /** `any(kw in text for kw in group.split('|'))`. */
  predicate GroupMatches(group: string, text: string) {
    exists kw :: kw in Split(group, '|') && Contains(text, kw)
  }

  /** The tags of the first `n` of `groups` whose keywords occur in `text`. */
  function MatchedTags(groups: seq<(string, string)>, text: string, n: nat): seq<string>
    requires n <= |groups|
  {
    if n == 0 then []
    else MatchedTags(groups, text, n - 1) + (if GroupMatches(groups[n - 1].0, text) then [groups[n - 1].1] else [])
  }

  /** `_extract_tags(content)`, listed in group order. */
  function Tags(content: string): (r: seq<string>)
    ensures r != []
  {
    var found := MatchedTags(TagGroups, Lower(content), |TagGroups|);
    if found == [] then [DefaultTag] else found
  }

  /** The tags of the groups are distinct, and none is the default tag. */
  lemma TagGroupsDistinct()
    ensures forall i, j :: 0 <= i < j < |TagGroups| ==> TagGroups[i].1 != TagGroups[j].1
    ensures forall i :: 0 <= i < |TagGroups| ==> TagGroups[i].1 != DefaultTag
  {
  }

  /** The first `n` groups contribute exactly the tags of those of them that match. */
  lemma {:induction false} MatchedTagsMembers(groups: seq<(string, string)>, text: string, n: nat)
    requires n <= |groups|
    ensures forall t :: t in MatchedTags(groups, text, n) <==>
      exists g :: 0 <= g < n && groups[g].1 == t && GroupMatches(groups[g].0, text)
  {
    if n > 0 {
      MatchedTagsMembers(groups, text, n - 1);
    }
  }

  /** Where the groups' tags are distinct, each matching group's tag is listed once. */
  lemma {:induction false} MatchedTagsDistinct(groups: seq<(string, string)>, text: string, n: nat)
    requires n <= |groups|
    requires forall i, j :: 0 <= i < j < |groups| ==> groups[i].1 != groups[j].1
    ensures forall i, j :: 0 <= i < j < |MatchedTags(groups, text, n)| ==>
      MatchedTags(groups, text, n)[i] != MatchedTags(groups, text, n)[j]
  {
    if n > 0 {
      MatchedTagsDistinct(groups, text, n - 1);
      var prev := MatchedTags(groups, text, n - 1);
      if GroupMatches(groups[n - 1].0, text) {
        MatchedTagsMembers(groups, text, n - 1);
        assert groups[n - 1].1 !in prev;
      }
    }
  }

  /** `_extract_tags` gives each matching group's tag once, and the default tag exactly when no
      group matches; there is always a tag. */
  lemma TagsMeaning(content: string)
    ensures Tags(content) != []
    ensures forall t :: t in Tags(content) <==>
      (exists g :: 0 <= g < |TagGroups| && TagGroups[g].1 == t && GroupMatches(TagGroups[g].0, Lower(content)))
      || (t == DefaultTag && forall g :: 0 <= g < |TagGroups| ==> !GroupMatches(TagGroups[g].0, Lower(content)))
    ensures forall i, j :: 0 <= i < j < |Tags(content)| ==> Tags(content)[i] != Tags(content)[j]
  {
    var text := Lower(content);
    var found := MatchedTags(TagGroups, text, |TagGroups|);
    TagGroupsDistinct();
    MatchedTagsMembers(TagGroups, text, |TagGroups|);
    MatchedTagsDistinct(TagGroups, text, |TagGroups|);
    if found == [] {
      forall g | 0 <= g < |TagGroups| ensures !GroupMatches(TagGroups[g].0, text) {
        assert TagGroups[g].1 !in found;
      }
      assert Tags(content) == [DefaultTag];
    } else {
      assert found[0] in found;
      assert Tags(content) == found;
    }
  }

  /** `_extract_tags(content)` as the source runs it: one pass over the groups. */
  method ExtractTags(content: string) returns (tags: seq<string>)
    ensures tags == Tags(content)
  {
    var text := Lower(content);
    tags := [];
    for n := 0 to |TagGroups|
      invariant tags == MatchedTags(TagGroups, text, n)
    {
      var (group, tag) := TagGroups[n];
      if GroupMatches(group, text) {
        tags := tags + [tag];
      }
    }
    if tags == [] {
      tags := [DefaultTag];
    }
  }

  /** `any(line.startswith('#') for line in lines[:3])` over the lines of the stripped content. */
  predicate HasTitle(content: string) {
    var lines := Split(Strip(content), '\n');
    exists i :: 0 <= i < |lines| && i < 3 && StartsWith(lines[i], "#")
  }

  /** The body `_format_content` emits: the formatted sections, or the content itself when it
      has none. */
  function Body(content: string): string {
    var sections := Sections(content);
    if sections != [] then FormattedSections(sections) else content
  }

  /** `_format_content(content, title)`: empty content stays empty; otherwise a `# title` line
      when there is a title and none of the first three lines starts with `#`, then the body,
      joined by a blank line and stripped. */
  function FormatContent(content: string, title: string): string {
    if content == "" then ""
    else
      var head := if title != "" && !HasTitle(content) then ["# " + title + "\n"] else [];
      Strip(Join(head + [Body(content)], "\n\n"))
  }

  /** A title the formatter adds is the title `_extract_title` finds in its output. */
  lemma FormatContentTitle(content: string, title: string)
    requires content != "" && LStrip(title) != [] && '\n' !in title && !HasTitle(content)
    ensures ExtractTitle(FormatContent(content, title)) == Strip(title)
  {
    var rest := TitledOutput(content, title);
    HeadingSurvivesRStrip(title, rest);
  }

  /** With a title added, the output is the `# title` line and the rest, stripped at the end. */
  lemma TitledOutput(content: string, title: string) returns (rest: string)
    requires content != "" && title != [] && !HasTitle(content)
    ensures FormatContent(content, title) == RStrip("# " + title + rest) && rest != [] && rest[0] == '\n'
  {
    rest := "\n" + "\n\n" + Body(content);
    FormatContentTitled(content, title);
    TitledJoin(title, Body(content));
    HashUnstripped(title, rest);
  }

  /** Unfolding `FormatContent` where the title line is added. */
  lemma FormatContentTitled(content: string, title: string)
    requires content != "" && title != [] && !HasTitle(content)
    ensures FormatContent(content, title) == Strip(Join(["# " + title + "\n"] + [Body(content)], "\n\n"))
  {
  }

  /** The title line joined to the body. */
  lemma TitledJoin(title: string, body: string)
    ensures Join(["# " + title + "\n"] + [body], "\n\n") == "# " + title + ("\n" + "\n\n" + body)
  {
    JoinTwo("# " + title + "\n", body, "\n\n");
  }

  /** A heading line has no leading whitespace. */
  lemma HashUnstripped(title: string, rest: string)
    ensures LStrip("# " + title + rest) == "# " + title + rest
  {
    assert ("# " + title + rest)[0] == '#';
  }

  /** Stripping the end of a text that opens with a `# ` heading line keeps the heading. */
  lemma HeadingSurvivesRStrip(title: string, rest: string)
    requires LStrip(title) != [] && '\n' !in title && (rest == [] || rest[0] == '\n')
    ensures SearchHeading(RStrip("# " + title + rest)) == Some(Strip(title))
  {
    var s := "# " + title + rest;
    var q := |title| - |LStrip(title)|;
    assert s[2 + q] == title[q];
    RStripPast(s, 2 + q);
    if |RStrip(s)| > 2 + |title| {
      var z := LongTail(s, title, rest);
      HeadingTitle(title, z);
    } else {
      var t', tail := ShortHead(s, title, rest);
      assert t'[q] == title[q];
      LStripNonBlank(t', q);
      LStripAppend(t', tail);
      RStripBlankTail(LStrip(t'), tail);
      HeadingTitle(t', []);
    }
  }

  /** Where `rstrip` stops after the heading line, what follows the line starts with a line end. */
  lemma LongTail(s: string, title: string, rest: string) returns (z: string)
    requires s == "# " + title + rest && (rest == [] || rest[0] == '\n')
    requires |RStrip(s)| > 2 + |title|
    ensures RStrip(s) == "# " + title + z && z != [] && z[0] == '\n'
  {
    var m := |RStrip(s)|;
    z := s[2 + |title|..m];
    assert z[0] == rest[0];
  }

  /** Where `rstrip` stops inside the heading line, it cuts a blank tail off the title. */
  lemma ShortHead(s: string, title: string, rest: string) returns (t': string, tail: string)
    requires s == "# " + title + rest && 2 < |RStrip(s)| <= 2 + |title|
    ensures RStrip(s) == "# " + t' + [] && title == t' + tail && |t'| == |RStrip(s)| - 2
    ensures forall i :: 0 <= i < |tail| ==> IsSpace(tail[i])
  {
    var m := |RStrip(s)|;
    t' := title[..m - 2];
    tail := title[m - 2..];
    assert RStrip(s) == s[..m];
    RStripDropsSpace(s);
    forall i | 0 <= i < |tail| ensures IsSpace(tail[i]) {
      assert tail[i] == s[m + i];
    }
  }
  /** `data.get(key, "")` for the two text fields `format_proposal` reads: a missing or falsy
      value acts as "", a text as itself; any other value is refused, since the source would
      call `str` methods on it or format it with `str()`. */
  function TextOrEmpty(data: Object, key: string): (r: Result<string>)
    ensures r.Ok? && r.value != "" ==> Get(data, key) == Some(Str(r.value))
    ensures r == Ok("") <==> !HasKey(data, key) || !Truthy(Get(data, key).value)
  {
    match Get(data, key)
    case None => Ok("")
    case Some(v) =>
      if !Truthy(v) then Ok("") else if v.Str? then Ok(v.s) else Err("ill-typed field: " + key)
  }

  /** `format_proposal(data)`: a copy of the data with the content formatted; a title drawn from
      the formatted content when the data has none; tags drawn from it when the data has none. */
  function FormatProposal(data: Object): Result<Object> {
    var content :- TextOrEmpty(data, "content");
    var title :- TextOrEmpty(data, "title");
    Ok(Completed(data, title, FormatContent(content, title)))
  }

  /** The copy of the data `format_proposal` returns, given the title it read and the formatted
      content. */
  function Completed(data: Object, title: string, formatted: string): Object {
    var withContent := Put(data, "content", Str(formatted));
    var withTitle := if title == "" then Put(withContent, "title", Str(ExtractTitle(formatted))) else withContent;
    if HasKey(withTitle, "tags") && Truthy(Get(withTitle, "tags").value) then withTitle
    else Put(withTitle, "tags", Records.StrList(Tags(formatted)))
  }

  /** `format_proposal` fails only on a truthy content or title that is not text. */
  lemma FormatProposalFails(data: Object)
    ensures FormatProposal(data).Err? <==>
      (HasKey(data, "content") && Truthy(Get(data, "content").value) && !Get(data, "content").value.Str?) ||
      (HasKey(data, "title") && Truthy(Get(data, "title").value) && !Get(data, "title").value.Str?)
  {
  }

  /** What `format_proposal` gives: the formatted content; the title kept when set and extracted
      from the formatted content otherwise; the tags kept when set and extracted otherwise, so
      there always are some; every other key untouched. */
  lemma FormatProposalFields(data: Object)
    requires FormatProposal(data).Ok?
    ensures var r := FormatProposal(data).value;
      var title := TextOrEmpty(data, "title").value;
      var formatted := FormatContent(TextOrEmpty(data, "content").value, title);
      && Get(r, "content") == Some(Str(formatted))
      && (title != "" ==> Get(r, "title") == Get(data, "title"))
      && (title == "" ==> Get(r, "title") == Some(Str(ExtractTitle(formatted))))
      && (HasKey(data, "tags") && Truthy(Get(data, "tags").value) ==> Get(r, "tags") == Get(data, "tags"))
      && (!(HasKey(data, "tags") && Truthy(Get(data, "tags").value)) ==>
            Get(r, "tags") == Some(Records.StrList(Tags(formatted))))
      && HasKey(r, "tags") && Truthy(Get(r, "tags").value)
      && forall k :: k != "content" && k != "title" && k != "tags" ==> Get(r, k) == Get(data, k)
  {
    var title := TextOrEmpty(data, "title").value;
    var formatted := FormatContent(TextOrEmpty(data, "content").value, title);
    CompletedTexts(data, title, formatted);
    CompletedTags(data, title, formatted);
  }

  lemma CompletedTexts(data: Object, title: string, formatted: string)
    requires title != "" ==> Get(data, "title") == Some(Str(title))
    ensures var r := Completed(data, title, formatted);
      && Get(r, "content") == Some(Str(formatted))
      && (title != "" ==> Get(r, "title") == Get(data, "title"))
      && (title == "" ==> Get(r, "title") == Some(Str(ExtractTitle(formatted))))
      && forall k :: k != "content" && k != "title" && k != "tags" ==> Get(r, k) == Get(data, k)
  {
    CompletedGet(data, title, formatted, "content");
    CompletedGet(data, title, formatted, "title");
    forall k | k != "content" && k != "title" && k != "tags"
      ensures Get(Completed(data, title, formatted), k) == Get(data, k)
    {
      CompletedGet(data, title, formatted, k);
    }
  }

  /** Looking up one key in the completed copy. */
  lemma CompletedGet(data: Object, title: string, formatted: string, k: string)
    requires k != "tags"
    ensures Get(Completed(data, title, formatted), k) ==
      if k == "content" then Some(Str(formatted))
      else if k == "title" && title == "" then Some(Str(ExtractTitle(formatted)))
      else Get(data, k)
  {
    var withContent := Put(data, "content", Str(formatted));
    PutGet(data, "content", Str(formatted), k);
    var withTitle := if title == "" then Put(withContent, "title", Str(ExtractTitle(formatted))) else withContent;
    PutGet(withContent, "title", Str(ExtractTitle(formatted)), k);
    PutGet(withTitle, "tags", Records.StrList(Tags(formatted)), k);
  }

  lemma CompletedTags(data: Object, title: string, formatted: string)
    ensures var r := Completed(data, title, formatted);
      && (HasKey(data, "tags") && Truthy(Get(data, "tags").value) ==> Get(r, "tags") == Get(data, "tags"))
      && (!(HasKey(data, "tags") && Truthy(Get(data, "tags").value)) ==>
            Get(r, "tags") == Some(Records.StrList(Tags(formatted))))
      && HasKey(r, "tags") && Truthy(Get(r, "tags").value)
  {
    var withContent := Put(data, "content", Str(formatted));
    PutGet(data, "content", Str(formatted), "tags");
    var withTitle := if title == "" then Put(withContent, "title", Str(ExtractTitle(formatted))) else withContent;
    PutGet(withContent, "title", Str(ExtractTitle(formatted)), "tags");
    PutGet(withTitle, "tags", Records.StrList(Tags(formatted)), "tags");
    TagsMeaning(formatted);
  }
}
