/** The gallery validator (scripts/verify_gallery.py): it checks that every
    snapshot file is referenced from the gallery pages with the right
    extension and that no page references a snapshot that does not exist.

    The snapshots are the `SnapshotInfo` objects of the dictionary built by
    `gather_snapshots`, in its (sorted-glob) order, keyed by file name. The
    references are the resource names the regular expression extracts from
    the pages, in page order; reading, globbing and matching are outside the
    model. */
module Gallery {
  import Text
  import Sorting

  /** `to_dict()` of a snapshot: its name and flags as values. */
  datatype SnapState = SnapState(name: string, isAudio: bool, chartReferenced: bool, audioReferenced: bool)

  class SnapshotInfo {
    const name: string
    const isAudio: bool
    var chartReferenced: bool
    var audioReferenced: bool

    constructor (name: string)
      ensures this.name == name
      ensures isAudio <==> Text.Contains(name, "@audio")
      ensures !chartReferenced && !audioReferenced
    {
      this.name := name;
      isAudio := Text.Contains(name, "@audio");
      chartReferenced := false;
      audioReferenced := false;
    }

    function ExpectedChart(): string {
      name + ".svg"
    }

    function ExpectedAudio(): string {
      name + ".wav"
    }

    function ToDict(): SnapState
      reads this
    {
      SnapState(name, isAudio, chartReferenced, audioReferenced)
    }
  }

  // ---------------------------------------------------------------------
  // What one reference does (verify_gallery.py:112-125)

  /** A transient `.new.` artifact, skipped entirely. */
  predicate Ignored(r: string) {
    Text.Contains(r, ".new.")
  }

  /** `resource.rsplit(".", 1)[0]`: the snapshot file a reference names. */
  function Underlying(r: string): string {
    Text.BeforeLast(r, '.')
  }

  predicate MarksChart(r: string, name: string) {
    !Ignored(r) && Underlying(r) == name && Text.EndsWith(r, ".svg")
  }

  predicate MarksAudio(r: string, name: string) {
    !Ignored(r) && Underlying(r) == name && !Text.EndsWith(r, ".svg") && Text.EndsWith(r, ".wav")
  }

  /** Some reference among `refs` marks `name`'s chart as referenced. */
  predicate ChartRef(refs: seq<string>, name: string) {
    refs != [] && (ChartRef(refs[..|refs| - 1], name) || MarksChart(refs[|refs| - 1], name))
  }

  predicate AudioRef(refs: seq<string>, name: string) {
    refs != [] && (AudioRef(refs[..|refs| - 1], name) || MarksAudio(refs[|refs| - 1], name))
  }

  predicate IsOrphan(names: seq<string>, r: string) {
    !Ignored(r) && Underlying(r) !in names
  }

  lemma {:induction false} ChartRefMeaning(refs: seq<string>, name: string)
    ensures ChartRef(refs, name) <==> exists j :: 0 <= j < |refs| && MarksChart(refs[j], name)
    decreases |refs|
  {
    if refs != [] {
      var init := refs[..|refs| - 1];
      ChartRefMeaning(init, name);
      assert forall j :: 0 <= j < |init| ==> init[j] == refs[j];
    }
  }

  lemma {:induction false} AudioRefMeaning(refs: seq<string>, name: string)
    ensures AudioRef(refs, name) <==> exists j :: 0 <= j < |refs| && MarksAudio(refs[j], name)
    decreases |refs|
  {
    if refs != [] {
      var init := refs[..|refs| - 1];
      AudioRefMeaning(init, name);
      assert forall j :: 0 <= j < |init| ==> init[j] == refs[j];
    }
  }

  /** The references a snapshot expects are the ones that mark it. */
  lemma ExpectedReferencesMark(info: SnapshotInfo)
    requires !Text.Contains(info.name + ".svg", ".new.") && !Text.Contains(info.name + ".wav", ".new.")
    ensures MarksChart(info.ExpectedChart(), info.name)
    ensures MarksAudio(info.ExpectedAudio(), info.name)
  {
    var c, a := info.ExpectedChart(), info.ExpectedAudio();
    assert c[|c| - 4..] == ".svg";
    assert a[|a| - 4..] == ".wav";
    assert '.' !in c[|info.name| + 1..] by { assert c[|info.name| + 1..] == "svg"; }
    assert '.' !in a[|info.name| + 1..] by { assert a[|info.name| + 1..] == "wav"; }
    BeforeLastAt(c, |info.name|);
    BeforeLastAt(a, |info.name|);
  }

  lemma InSlice(s: string, a: nat, j: nat)
    requires a <= j < |s|
    ensures s[j] in s[a..]
  {
    assert s[a..][j - a] == s[j];
  }

  lemma BeforeLastAt(s: string, k: nat)
    requires k < |s| && s[k] == '.' && '.' !in s[k + 1..]
    ensures Text.BeforeLast(s, '.') == s[..k]
  {
    InSlice(s, 0, k);
    LastDotAt(s, k, Text.BeforeLast(s, '.'));
  }

  /** A prefix `r` of `s` that stops at a dot with no dot after it stops at
      the last dot, `k`. */
  lemma LastDotAt(s: string, k: nat, r: string)
    requires k < |s| && s[k] == '.' && '.' !in s[k + 1..]
    requires |r| < |s| && r == s[..|r|] && s[|r|] == '.' && '.' !in s[|r| + 1..]
    ensures r == s[..k]
  {
    forall j | k + 1 <= j < |s| ensures s[j] != '.' {
      InSlice(s, k + 1, j);
    }
    forall j | |r| + 1 <= j < |s| ensures s[j] != '.' {
      InSlice(s, |r| + 1, j);
    }
  }

  /** The page regex matches case-insensitively but the extension test does
      not: an existing snapshot referenced as `.SVG` is neither marked nor an
      orphan. */
  lemma UppercaseExtensionMarksNothing(names: seq<string>, name: string)
    requires name in names && !Text.Contains(name + ".SVG", ".new.")
    ensures !MarksChart(name + ".SVG", name) && !MarksAudio(name + ".SVG", name)
    ensures !IsOrphan(names, name + ".SVG")
  {
    var r := name + ".SVG";
    assert r[|r| - 4..] == ".SVG";
    assert '.' !in r[|name| + 1..] by { assert r[|name| + 1..] == "SVG"; }
    BeforeLastAt(r, |name|);
    assert r[..|name|] == name;
  }

  // ---------------------------------------------------------------------
  // String order and the report (verify_gallery.py:127-157)

  /** Python's string order: lexicographic by code point. */
  function LexLeq(a: string, b: string): bool
    decreases |a|
  {
    a == [] || (b != [] && (a[0] < b[0] || (a[0] == b[0] && LexLeq(a[1..], b[1..]))))
  }

  lemma {:induction false} LexLeqTotal(a: string, b: string)
    ensures LexLeq(a, b) || LexLeq(b, a)
    decreases |a|
  {
    if a != [] && b != [] && a[0] == b[0] {
      LexLeqTotal(a[1..], b[1..]);
    }
  }

  lemma {:induction false} LexLeqTransitive(a: string, b: string, c: string)
    requires LexLeq(a, b) && LexLeq(b, c)
    ensures LexLeq(a, c)
    decreases |a|
  {
    if a != [] && b != [] && c != [] && a[0] == b[0] && b[0] == c[0] {
      LexLeqTransitive(a[1..], b[1..], c[1..]);
    }
  }

  lemma {:induction false} LexLeqAntisymmetric(a: string, b: string)
    requires LexLeq(a, b) && LexLeq(b, a)
    ensures a == b
    decreases |a|
  {
    if a != [] && b != [] {
      LexLeqAntisymmetric(a[1..], b[1..]);
      assert a == [a[0]] + a[1..] && b == [b[0]] + b[1..];
    }
  }

  lemma LexOrder()
    ensures Sorting.Total(LexLeq) && Sorting.Transitive(LexLeq) && Sorting.Antisymmetric(LexLeq)
  {
    forall a, b ensures LexLeq(a, b) || LexLeq(b, a) {
      LexLeqTotal(a, b);
    }
    forall a, b, c | LexLeq(a, b) && LexLeq(b, c) ensures LexLeq(a, c) {
      LexLeqTransitive(a, b, c);
    }
    forall a, b | LexLeq(a, b) && LexLeq(b, a) ensures a == b {
      LexLeqAntisymmetric(a, b);
    }
  }

  /** The names of the snapshots satisfying `p`, in dictionary order. */
  function Select(states: seq<SnapState>, p: SnapState -> bool): (r: seq<string>)
    ensures forall x :: x in r <==> exists i :: 0 <= i < |states| && states[i].name == x && p(states[i])
  {
    if states == [] then []
    else
      var init := states[..|states| - 1];
      var last := states[|states| - 1];
      assert forall i :: 0 <= i < |init| ==> init[i] == states[i];
      Select(init, p) + (if p(last) then [last.name] else [])
  }

  function Sorted(s: seq<string>): seq<string> {
    Sorting.SortBy(s, LexLeq)
  }

  datatype Report = Report(
    missingChartRefs: seq<string>,
    missingAudioRefs: seq<string>,
    missingAudioSvgRefs: seq<string>,
    orphanReferences: seq<string>,
    unreferencedSnapshots: seq<string>,
    totalSnapshots: nat,
    snapshots: seq<SnapState>)

  predicate MissingChart(s: SnapState) { !s.isAudio && !s.chartReferenced }
  predicate MissingAudio(s: SnapState) { s.isAudio && !s.audioReferenced }
  predicate MissingAudioSvg(s: SnapState) { s.isAudio && !s.chartReferenced }
  predicate Unreferenced(s: SnapState) {
    (!s.chartReferenced && (!s.isAudio || !s.audioReferenced)) && (!s.isAudio || !s.audioReferenced)
  }

  /** The dictionary `analyze` returns, from the final snapshot flags and
      the orphan set (listed once each, in any order). */
  function ReportOf(states: seq<SnapState>, orphans: seq<string>, requireAudioSvg: bool): Report {
    Report(
      Sorted(Select(states, MissingChart)),
      Sorted(Select(states, MissingAudio)),
      if requireAudioSvg then Sorted(Select(states, MissingAudioSvg)) else [],
      Sorted(orphans),
      Sorted(Select(states, Unreferenced)),
      |states|,
      states)
  }

  /** The exit status of `print_human` and of the `--json` path
      (verify_gallery.py:185-196, 240-247). */
  function ExitCode(report: Report, strict: bool): int {
    if || report.missingChartRefs != []
       || report.missingAudioRefs != []
       || report.orphanReferences != []
       || (strict && report.unreferencedSnapshots != [])
       || report.missingAudioSvgRefs != []
    then 1 else 0
  }

  // ---------------------------------------------------------------------
  // analyze (verify_gallery.py:100-157)

  predicate DistinctNames(infos: seq<SnapshotInfo>) {
    forall i, j :: 0 <= i < j < |infos| ==> infos[i].name != infos[j].name
  }

  function Names(infos: seq<SnapshotInfo>): (r: seq<string>)
    ensures |r| == |infos| && forall i :: 0 <= i < |infos| ==> r[i] == infos[i].name
  {
    seq(|infos|, i requires 0 <= i < |infos| => infos[i].name)
  }

  function StatesOf(infos: seq<SnapshotInfo>): (r: seq<SnapState>)
    reads set i | 0 <= i < |infos| :: infos[i]
    ensures |r| == |infos| && forall i :: 0 <= i < |infos| ==> r[i] == infos[i].ToDict()
  {
    if infos == [] then []
    else StatesOf(infos[..|infos| - 1]) + [infos[|infos| - 1].ToDict()]
  }

  /** The dictionary lookup `snapshots[name]`. */
  function Find(infos: seq<SnapshotInfo>, name: string): (r: int)
    ensures -1 <= r < |infos|
    ensures r >= 0 ==> infos[r].name == name
    ensures r < 0 ==> name !in Names(infos)
  {
    if infos == [] then -1
    else if infos[|infos| - 1].name == name then |infos| - 1
    else Find(infos[..|infos| - 1], name)
  }

  /** One pass of the loop body for a reference: skip `.new.` artifacts,
      record an orphan, or set the flag its extension names. */
  method Record(infos: seq<SnapshotInfo>, resource: string, orphanList: seq<string>)
    returns (orphanList': seq<string>)
    requires DistinctNames(infos)
    modifies set i | 0 <= i < |infos| :: infos[i]
    ensures forall i :: 0 <= i < |infos| ==>
      infos[i].chartReferenced == (old(infos[i].chartReferenced) || MarksChart(resource, infos[i].name))
    ensures forall i :: 0 <= i < |infos| ==>
      infos[i].audioReferenced == (old(infos[i].audioReferenced) || MarksAudio(resource, infos[i].name))
    ensures orphanList' ==
      if IsOrphan(Names(infos), resource) && resource !in orphanList then orphanList + [resource] else orphanList
  {
    orphanList' := orphanList;
    if !Text.Contains(resource, ".new.") {
      var underlying := Text.BeforeLast(resource, '.');
      var f := Find(infos, underlying);
      if f < 0 {
        if resource !in orphanList {
          orphanList' := orphanList + [resource];
        }
      } else {
        assert underlying in Names(infos);
        OnlyEntryNamed(infos, f);
        var info := infos[f];
        if Text.EndsWith(resource, ".svg") {
          info.chartReferenced := true;
        } else if Text.EndsWith(resource, ".wav") {
          info.audioReferenced := true;
        }
      }
    }
  }

  /** With distinct names, entry `f` is the only one with its name, so it is
      also the only one that is the same object. */
  lemma OnlyEntryNamed(infos: seq<SnapshotInfo>, f: nat)
    requires DistinctNames(infos) && f < |infos|
    ensures forall i :: 0 <= i < |infos| && i != f ==> infos[i].name != infos[f].name && infos[i] != infos[f]
  {
    forall i | 0 <= i < |infos| && i != f
      ensures infos[i].name != infos[f].name
    {
      if i < f {
        assert infos[i].name != infos[f].name;
      } else {
        assert infos[f].name != infos[i].name;
      }
    }
  }

  /** Taking one more reference into account. */
  lemma RefsStep(refs: seq<string>, k: nat)
    requires k < |refs|
    ensures forall name :: ChartRef(refs[..k + 1], name) == (ChartRef(refs[..k], name) || MarksChart(refs[k], name))
    ensures forall name :: AudioRef(refs[..k + 1], name) == (AudioRef(refs[..k], name) || MarksAudio(refs[k], name))
    ensures forall r :: r in refs[..k + 1] <==> r in refs[..k] || r == refs[k]
  {
    assert refs[..k + 1][..k] == refs[..k];
    assert refs[..k + 1] == refs[..k] + [refs[k]];
  }

  lemma ReferencedStep(refs: seq<string>, k: nat)
    requires k < |refs|
    ensures (set j | 0 <= j < k + 1 && !Ignored(refs[j]) :: refs[j])
         == (set j | 0 <= j < k && !Ignored(refs[j]) :: refs[j]) + (if Ignored(refs[k]) then {} else {refs[k]})
  {
  }

  method Analyze(infos: seq<SnapshotInfo>, refs: seq<string>, requireAudioSvg: bool)
    returns (report: Report, referenced: set<string>, ghost orphans: seq<string>)
    requires DistinctNames(infos)
    modifies set i | 0 <= i < |infos| :: infos[i]
    ensures forall i :: 0 <= i < |infos| ==>
      infos[i].chartReferenced == (old(infos[i].chartReferenced) || ChartRef(refs, infos[i].name))
    ensures forall i :: 0 <= i < |infos| ==>
      infos[i].audioReferenced == (old(infos[i].audioReferenced) || AudioRef(refs, infos[i].name))
    ensures referenced == set j | 0 <= j < |refs| && !Ignored(refs[j]) :: refs[j]
    ensures forall r :: r in orphans <==> r in refs && IsOrphan(Names(infos), r)
    ensures forall i, j :: 0 <= i < j < |orphans| ==> orphans[i] != orphans[j]
    ensures report == ReportOf(StatesOf(infos), orphans, requireAudioSvg)
  {
    referenced := {};
    var orphanList: seq<string> := [];
    for k := 0 to |refs|
      invariant forall i :: 0 <= i < |infos| ==>
        infos[i].chartReferenced == (old(infos[i].chartReferenced) || ChartRef(refs[..k], infos[i].name))
      invariant forall i :: 0 <= i < |infos| ==>
        infos[i].audioReferenced == (old(infos[i].audioReferenced) || AudioRef(refs[..k], infos[i].name))
      invariant referenced == set j | 0 <= j < k && !Ignored(refs[j]) :: refs[j]
      invariant forall r :: r in orphanList <==> r in refs[..k] && IsOrphan(Names(infos), r)
      invariant forall i, j :: 0 <= i < j < |orphanList| ==> orphanList[i] != orphanList[j]
    {
      var resource := refs[k];
      RefsStep(refs, k);
      ReferencedStep(refs, k);
      if !Text.Contains(resource, ".new.") {
        referenced := referenced + {resource};
      }
      orphanList := Record(infos, resource, orphanList);
    }
    assert refs[..|refs|] == refs;
    orphans := orphanList;
    report := ReportOf(StatesOf(infos), orphanList, requireAudioSvg);
  }

  // ---------------------------------------------------------------------
  // What the report and the exit code mean

  /** Every list in the report is in ascending string order. */
  lemma ReportSorted(states: seq<SnapState>, orphans: seq<string>, requireAudioSvg: bool)
    ensures var r := ReportOf(states, orphans, requireAudioSvg);
      && Sorting.SortedBy(r.missingChartRefs, LexLeq)
      && Sorting.SortedBy(r.missingAudioRefs, LexLeq)
      && Sorting.SortedBy(r.missingAudioSvgRefs, LexLeq)
      && Sorting.SortedBy(r.orphanReferences, LexLeq)
      && Sorting.SortedBy(r.unreferencedSnapshots, LexLeq)
  {
    LexOrder();
    Sorting.SortBySorted(Select(states, MissingChart), LexLeq);
    Sorting.SortBySorted(Select(states, MissingAudio), LexLeq);
    Sorting.SortBySorted(Select(states, MissingAudioSvg), LexLeq);
    Sorting.SortBySorted(orphans, LexLeq);
    Sorting.SortBySorted(Select(states, Unreferenced), LexLeq);
  }

  lemma SortedMembers(s: seq<string>)
    ensures forall x :: x in Sorted(s) <==> x in s
  {
    Sorting.SortByMembersAll(s, LexLeq);
  }

  /** Which snapshots each list names (verify_gallery.py:127-147). */
  lemma ReportMembers(states: seq<SnapState>, orphans: seq<string>, requireAudioSvg: bool, x: string)
    ensures var r := ReportOf(states, orphans, requireAudioSvg);
      && (x in r.missingChartRefs <==>
            exists i :: 0 <= i < |states| && states[i].name == x && !states[i].isAudio && !states[i].chartReferenced)
      && (x in r.missingAudioRefs <==>
            exists i :: 0 <= i < |states| && states[i].name == x && states[i].isAudio && !states[i].audioReferenced)
      && (x in r.missingAudioSvgRefs <==>
            requireAudioSvg
            && exists i :: 0 <= i < |states| && states[i].name == x && states[i].isAudio && !states[i].chartReferenced)
      && (x in r.orphanReferences <==> x in orphans)
      && (x in r.unreferencedSnapshots <==>
            exists i :: 0 <= i < |states| && states[i].name == x
              && !states[i].chartReferenced && !(states[i].isAudio && states[i].audioReferenced))
  {
    SortedMembers(Select(states, MissingChart));
    SortedMembers(Select(states, MissingAudio));
    SortedMembers(Select(states, MissingAudioSvg));
    SortedMembers(orphans);
    SortedMembers(Select(states, Unreferenced));
  }

  /** A snapshot that passes: chart snapshots have their chart referenced,
      audio snapshots their audio (and their chart when that is required),
      and under `--strict` nothing is unreferenced. */
  predicate SnapshotOk(s: SnapState, strict: bool, requireAudioSvg: bool) {
    && (!s.isAudio ==> s.chartReferenced)
    && (s.isAudio ==> s.audioReferenced)
    && (requireAudioSvg && s.isAudio ==> s.chartReferenced)
    && (strict ==> s.chartReferenced || (s.isAudio && s.audioReferenced))
  }

  lemma SelectEmpty(states: seq<SnapState>, p: SnapState -> bool)
    ensures Select(states, p) == [] <==> forall i :: 0 <= i < |states| ==> !p(states[i])
  {
    if Select(states, p) != [] {
      assert Select(states, p)[0] in Select(states, p);
    }
  }

  lemma SortedEmpty(s: seq<string>)
    ensures Sorted(s) == [] <==> s == []
  {
  }

  /** The validator succeeds exactly when no reference is an orphan and every
      snapshot passes. */
  lemma ExitCodeMeaning(states: seq<SnapState>, orphans: seq<string>, strict: bool, requireAudioSvg: bool)
    ensures ExitCode(ReportOf(states, orphans, requireAudioSvg), strict) == 0 <==>
      orphans == [] && forall i :: 0 <= i < |states| ==> SnapshotOk(states[i], strict, requireAudioSvg)
  {
    if ExitCode(ReportOf(states, orphans, requireAudioSvg), strict) == 0 {
      ExitZeroAllOk(states, orphans, strict, requireAudioSvg);
    }
    if orphans == [] && forall i :: 0 <= i < |states| ==> SnapshotOk(states[i], strict, requireAudioSvg) {
      AllOkExitZero(states, orphans, strict, requireAudioSvg);
    }
  }

  lemma ExitZeroAllOk(states: seq<SnapState>, orphans: seq<string>, strict: bool, requireAudioSvg: bool)
    requires ExitCode(ReportOf(states, orphans, requireAudioSvg), strict) == 0
    ensures orphans == [] && forall i :: 0 <= i < |states| ==> SnapshotOk(states[i], strict, requireAudioSvg)
  {
    SortedEmpty(Select(states, MissingChart));
    SortedEmpty(Select(states, MissingAudio));
    SortedEmpty(Select(states, MissingAudioSvg));
    SortedEmpty(orphans);
    SortedEmpty(Select(states, Unreferenced));
    forall i | 0 <= i < |states| ensures SnapshotOk(states[i], strict, requireAudioSvg) {
      NotSelected(states, MissingChart, i);
      NotSelected(states, MissingAudio, i);
      if requireAudioSvg {
        NotSelected(states, MissingAudioSvg, i);
      }
      if strict {
        NotSelected(states, Unreferenced, i);
      }
    }
  }

  lemma NotSelected(states: seq<SnapState>, p: SnapState -> bool, i: nat)
    requires Select(states, p) == [] && i < |states|
    ensures !p(states[i])
  {
    SelectEmpty(states, p);
  }

  lemma AllOkExitZero(states: seq<SnapState>, orphans: seq<string>, strict: bool, requireAudioSvg: bool)
    requires orphans == [] && forall i :: 0 <= i < |states| ==> SnapshotOk(states[i], strict, requireAudioSvg)
    ensures ExitCode(ReportOf(states, orphans, requireAudioSvg), strict) == 0
  {
    SortedEmpty(Select(states, MissingChart));
    SortedEmpty(Select(states, MissingAudio));
    SortedEmpty(Select(states, MissingAudioSvg));
    SortedEmpty(orphans);
    SortedEmpty(Select(states, Unreferenced));
    SelectEmpty(states, MissingChart);
    SelectEmpty(states, MissingAudio);
    SelectEmpty(states, MissingAudioSvg);
    SelectEmpty(states, Unreferenced);
  }

  /** The flags `analyze` leaves on fresh snapshots, from the references
      alone. */
  function Expected(names: seq<string>, refs: seq<string>): (r: seq<SnapState>)
    ensures |r| == |names|
  {
    seq(|names|, i requires 0 <= i < |names| =>
      SnapState(names[i], Text.Contains(names[i], "@audio"), ChartRef(refs, names[i]), AudioRef(refs, names[i])))
  }

  /** Referencing a chart snapshot only through other extensions, or not at
      all, fails the gallery. */
  lemma UnreferencedChartFails(names: seq<string>, refs: seq<string>, orphans: seq<string>,
                               strict: bool, requireAudioSvg: bool, i: nat)
    requires i < |names| && !Text.Contains(names[i], "@audio")
    requires forall r :: r in refs ==> !MarksChart(r, names[i])
    ensures ExitCode(ReportOf(Expected(names, refs), orphans, requireAudioSvg), strict) == 1
  {
    ChartRefMeaning(refs, names[i]);
    ExitCodeMeaning(Expected(names, refs), orphans, strict, requireAudioSvg);
    assert !SnapshotOk(Expected(names, refs)[i], strict, requireAudioSvg);
  }
}
