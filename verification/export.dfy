/** Plan export (src/lib/export.ts): the Markdown document, its tracker
    section that groups stories under their epics, the paragraph pass of the
    HTML conversion, and the download file name. The generation time and the
    current ISO timestamp are parameters. */
module Export {
  import opened Types
  import opened Strings

  // ---------------------------------------------------------------------
  // Document sections
  // ---------------------------------------------------------------------

  /** The optional sections of the document. */
  datatype Kind = Intro | Discovery | Project | EpicList | Approach | JiraResults

  /** Section order of export.ts: epics before the test approach. */
  const EXPORT_ORDER: seq<Kind> := [Intro, Discovery, Project, EpicList, Approach, JiraResults]

  /** Section order of the inline copy in the home page: the test approach
      before the epics. */
  const HOME_ORDER: seq<Kind> := [Intro, Discovery, Project, Approach, EpicList, JiraResults]

  function ExportRank(k: Kind): nat {
    match k
    case Intro => 0
    case Discovery => 1
    case Project => 2
    case EpicList => 3
    case Approach => 4
    case JiraResults => 5
  }

  function HomeRank(k: Kind): nat {
    match k
    case Intro => 0
    case Discovery => 1
    case Project => 2
    case Approach => 3
    case EpicList => 4
    case JiraResults => 5
  }

  /** A section is emitted exactly when its field is non-empty (JavaScript
      truthiness of a string, or a positive length). */
  predicate Present(p: PlanContent, k: Kind) {
    match k
    case Intro => p.introduction != ""
    case Discovery => p.projectDisco != ""
    case Project => p.projectName != ""
    case EpicList => |p.epics| > 0
    case Approach => |p.testApproach| > 0
    case JiraResults => |p.jiraResults| > 0
  }

  /** The sections of `order` that are present, in that order. */
  function PresentKinds(p: PlanContent, order: seq<Kind>): (r: seq<Kind>)
    ensures |r| <= |order|
    ensures forall k :: k in r <==> k in order && Present(p, k)
  {
    if order == [] then []
    else (if Present(p, order[0]) then [order[0]] else []) + PresentKinds(p, order[1..])
  }

  /** `ks` is strictly increasing in `rank`. */
  predicate Increasing(ks: seq<Kind>, rank: Kind -> nat) {
    forall i, j :: 0 <= i < j < |ks| ==> rank(ks[i]) < rank(ks[j])
  }

  /** A sequence with a first element is increasing exactly when its tail
      is and the first element ranks below every later one. */
  lemma IncreasingCons(x: Kind, xs: seq<Kind>, rank: Kind -> nat)
    ensures Increasing([x] + xs, rank) <==> Increasing(xs, rank) && forall k :: k in xs ==> rank(x) < rank(k)
  {
    var s := [x] + xs;
    if Increasing(s, rank) {
      forall a, b | 0 <= a < b < |xs| ensures rank(xs[a]) < rank(xs[b]) {
        assert xs[a] == s[a + 1] && xs[b] == s[b + 1];
      }
      forall k | k in xs ensures rank(x) < rank(k) {
        var b :| 0 <= b < |xs| && xs[b] == k;
        assert s[0] == x && s[b + 1] == k;
        assert rank(s[0]) < rank(s[b + 1]);
      }
    }
    if Increasing(xs, rank) && forall k :: k in xs ==> rank(x) < rank(k) {
      forall i, j | 0 <= i < j < |s| ensures rank(s[i]) < rank(s[j]) {
        assert s[j] == xs[j - 1];
        if i > 0 {
          assert s[i] == xs[i - 1];
        }
      }
    }
  }

  /** Filtering keeps the order: if `order` is increasing in `rank`, so are
      the sections emitted. */
  lemma {:induction false} PresentKindsOrdered(p: PlanContent, order: seq<Kind>, rank: Kind -> nat)
    requires Increasing(order, rank)
    ensures Increasing(PresentKinds(p, order), rank)
  {
    if order != [] {
      var tail := order[1..];
      assert order == [order[0]] + tail;
      IncreasingCons(order[0], tail, rank);
      PresentKindsOrdered(p, tail, rank);
      if Present(p, order[0]) {
        IncreasingCons(order[0], PresentKinds(p, tail), rank);
      }
    }
  }

  /** export.ts emits the sections in the fixed order introduction, project
      discovery, project, epics, test approach, tracker results; a section is
      there exactly when its field is non-empty, and the document is its
      header followed by exactly those sections' texts, in that order. */
  lemma ExportSectionOrder(p: PlanContent, generated: string)
    ensures Increasing(PresentKinds(p, EXPORT_ORDER), ExportRank)
    ensures forall k :: k in PresentKinds(p, EXPORT_ORDER) <==> Present(p, k)
    ensures Markdown(p, generated) == Header(p.testPlanName, generated) + RenderAll(p, PresentKinds(p, EXPORT_ORDER))
  {
    PresentKindsOrdered(p, EXPORT_ORDER, ExportRank);
    forall k {
      KindListed(k);
    }
    assert RenderFrom(p, EXPORT_ORDER, 0) == RenderAll(p, PresentKinds(p, EXPORT_ORDER)) by {
      RenderFromPresent(p, EXPORT_ORDER, 0);
      assert EXPORT_ORDER[0..] == EXPORT_ORDER;
    }
  }

  /** Both orders list every kind of section. */
  lemma KindListed(k: Kind)
    ensures k in EXPORT_ORDER && k in HOME_ORDER
  {
    match k
    case Intro => assert EXPORT_ORDER[0] == k && HOME_ORDER[0] == k;
    case Discovery => assert EXPORT_ORDER[1] == k && HOME_ORDER[1] == k;
    case Project => assert EXPORT_ORDER[2] == k && HOME_ORDER[2] == k;
    case EpicList => assert EXPORT_ORDER[3] == k && HOME_ORDER[4] == k;
    case Approach => assert EXPORT_ORDER[4] == k && HOME_ORDER[3] == k;
    case JiraResults => assert EXPORT_ORDER[5] == k && HOME_ORDER[5] == k;
  }

  /** The home page's copy emits the same sections, but the test approach
      comes before the epics. */
  lemma HomeSectionOrder(p: PlanContent, generated: string)
    ensures Increasing(PresentKinds(p, HOME_ORDER), HomeRank)
    ensures forall k :: k in PresentKinds(p, HOME_ORDER) <==> k in PresentKinds(p, EXPORT_ORDER)
    ensures HomeMarkdown(p, generated) == Header(p.testPlanName, generated) + RenderAll(p, PresentKinds(p, HOME_ORDER))
  {
    PresentKindsOrdered(p, HOME_ORDER, HomeRank);
    assert RenderFrom(p, HOME_ORDER, 0) == RenderAll(p, PresentKinds(p, HOME_ORDER)) by {
      RenderFromPresent(p, HOME_ORDER, 0);
      assert HOME_ORDER[0..] == HOME_ORDER;
    }
  }

  /** The texts of the sections `ks`, one after the other. */
  function RenderAll(p: PlanContent, ks: seq<Kind>): string {
    if ks == [] then "" else RenderKind(p, ks[0]) + RenderAll(p, ks[1..])
  }

  /** Rendering the sections of `order[i..]` piece by piece, absent ones as
      nothing, gives the texts of the present ones in order. */
  lemma {:induction false} RenderFromPresent(p: PlanContent, order: seq<Kind>, i: nat)
    requires i <= |order|
    ensures RenderFrom(p, order, i) == RenderAll(p, PresentKinds(p, order[i..]))
    decreases |order| - i
  {
    if i < |order| {
      RenderFromPresent(p, order, i + 1);
      assert order[i..][0] == order[i] && order[i..][1..] == order[i + 1..];
      var rest := PresentKinds(p, order[i + 1..]);
      if Present(p, order[i]) {
        var ks := [order[i]] + rest;
        assert ks[0] == order[i] && ks[1..] == rest;
      } else {
        assert [] + rest == rest;
      }
    }
  }

  // ---------------------------------------------------------------------
  // Rendering
  // ---------------------------------------------------------------------

  function Header(testPlanName: string, generated: string): string {
    "# Test Plan: " + testPlanName + "\n\n" + "**Generated:** " + generated + "\n\n"
  }

  /** `epics.map(e => "- " + e)`. */
  function EpicLines(epics: seq<string>): (r: seq<string>)
    ensures |r| == |epics|
    ensures forall i :: 0 <= i < |r| ==> r[i] == "- " + epics[i]
  {
    seq(|epics|, i requires 0 <= i < |epics| => "- " + epics[i])
  }

  /** One test-approach entry: its heading, then its details only when
      non-empty. */
  function ApproachBlock(section: TestApproachSection): string {
    "### " + section.name + "\n" + (if section.details != "" then section.details + "\n\n" else "")
  }

  function ApproachBlocks(sections: seq<TestApproachSection>): string {
    if sections == [] then ""
    else ApproachBlocks(sections[..|sections| - 1]) + ApproachBlock(sections[|sections| - 1])
  }

  function RenderKind(p: PlanContent, k: Kind): string {
    match k
    case Intro => "## Introduction\n" + p.introduction + "\n\n"
    case Discovery => "## Project Discovery\n" + p.projectDisco + "\n\n"
    case Project => "## Project\n**Project Name:** " + p.projectName + "\n\n"
    case EpicList => "## Epics\n" + Join(EpicLines(p.epics), "\n") + "\n\n"
    case Approach => "## Test Approach\n" + ApproachBlocks(p.testApproach) + "\n"
    case JiraResults => JiraMarkdown(p.jiraResults)
  }

  /** Section `k` as it appears in the document: rendered when present,
      nothing otherwise. */
  function Piece(p: PlanContent, k: Kind): string {
    if Present(p, k) then RenderKind(p, k) else ""
  }

  /** The sections `order[i..]` rendered one after the other. */
  function RenderFrom(p: PlanContent, order: seq<Kind>, i: nat): string
    requires i <= |order|
    decreases |order| - i
  {
    if i == |order| then "" else Piece(p, order[i]) + RenderFrom(p, order, i + 1)
  }

  /** `generateMarkdown(plan)` of export.ts, generated at `generated`. */
  function Markdown(p: PlanContent, generated: string): string {
    Header(p.testPlanName, generated) + RenderFrom(p, EXPORT_ORDER, 0)
  }

  /** The inline `generateMarkdown` of the home page. */
  function HomeMarkdown(p: PlanContent, generated: string): string {
    Header(p.testPlanName, generated) + RenderFrom(p, HOME_ORDER, 0)
  }

  /** The two generators only differ in where they put the test approach:
      with no epics or no test-approach sections their documents coincide. */
  lemma HomeMarkdownMatchesExport(p: PlanContent, generated: string)
    requires |p.epics| == 0 || |p.testApproach| == 0
    ensures HomeMarkdown(p, generated) == Markdown(p, generated)
  {
    assert EXPORT_ORDER[3] == HOME_ORDER[4] == EpicList;
    assert EXPORT_ORDER[4] == HOME_ORDER[3] == Approach;
    assert Piece(p, EpicList) == "" || Piece(p, Approach) == "";
    RenderFromSame(p, EXPORT_ORDER, HOME_ORDER, 5);
    RenderFromSwap(p, EXPORT_ORDER, HOME_ORDER, 3);
    RenderFromBack(p, EXPORT_ORDER, HOME_ORDER, 3);
  }

  /** Orders that agree from index `i` on render the same from there. */
  lemma {:induction false} RenderFromSame(p: PlanContent, o1: seq<Kind>, o2: seq<Kind>, i: nat)
    requires |o1| == |o2| && i <= |o1|
    requires forall j :: i <= j < |o1| ==> o1[j] == o2[j]
    ensures RenderFrom(p, o1, i) == RenderFrom(p, o2, i)
    decreases |o1| - i
  {
    if i < |o1| {
      RenderFromSame(p, o1, o2, i + 1);
    }
  }

  /** Swapping two neighbouring sections changes nothing when one of them
      renders empty. */
  lemma RenderFromSwap(p: PlanContent, o1: seq<Kind>, o2: seq<Kind>, i: nat)
    requires |o1| == |o2| && i + 2 <= |o1|
    requires o1[i] == o2[i + 1] && o1[i + 1] == o2[i]
    requires Piece(p, o1[i]) == "" || Piece(p, o1[i + 1]) == ""
    requires RenderFrom(p, o1, i + 2) == RenderFrom(p, o2, i + 2)
    ensures RenderFrom(p, o1, i) == RenderFrom(p, o2, i)
  {
    var a, b := Piece(p, o1[i]), Piece(p, o1[i + 1]);
    var tail := RenderFrom(p, o1, i + 2);
    assert RenderFrom(p, o1, i) == a + (b + tail);
    assert RenderFrom(p, o2, i) == b + (a + tail);
    SwapAroundEmpty(a, b, tail);
  }

  lemma SwapAroundEmpty(a: string, b: string, t: string)
    requires a == "" || b == ""
    ensures a + (b + t) == b + (a + t)
  {
    if a == "" {
      assert a + (b + t) == b + t;
      assert a + t == t;
    } else {
      assert b + (a + t) == a + t;
      assert b + t == t;
    }
  }

  /** Orders that agree before index `i` and render the same from `i` on
      render the same documents. */
  lemma {:induction false} RenderFromBack(p: PlanContent, o1: seq<Kind>, o2: seq<Kind>, i: nat)
    requires |o1| == |o2| && i <= |o1|
    requires forall j :: 0 <= j < i ==> o1[j] == o2[j]
    requires RenderFrom(p, o1, i) == RenderFrom(p, o2, i)
    ensures RenderFrom(p, o1, 0) == RenderFrom(p, o2, 0)
  {
    if i > 0 {
      assert RenderFrom(p, o1, i - 1) == RenderFrom(p, o2, i - 1);
      RenderFromBack(p, o1, o2, i - 1);
    }
  }

  /** Both documents open with the title line, then the line with the
      generation time. */
  lemma MarkdownStartsWithHeader(p: PlanContent, generated: string)
    ensures var title := "# Test Plan: " + p.testPlanName + "\n\n";
      && StartsWith(Markdown(p, generated), title)
      && StartsWith(Markdown(p, generated), title + "**Generated:** " + generated + "\n\n")
      && StartsWith(HomeMarkdown(p, generated), title + "**Generated:** " + generated + "\n\n")
  {
    var title := "# Test Plan: " + p.testPlanName + "\n\n";
    var h := Header(p.testPlanName, generated);
    assert h == title + "**Generated:** " + generated + "\n\n";
    var doc := Markdown(p, generated);
    assert doc == h + RenderFrom(p, EXPORT_ORDER, 0);
    assert doc[..|h|] == h;
    assert doc[..|title|] == h[..|title|] == title;
    var home := HomeMarkdown(p, generated);
    assert home == h + RenderFrom(p, HOME_ORDER, 0);
    assert home[..|h|] == h;
  }

  /** Every rendered section is non-empty, so a section shows up in the
      document exactly when its field is set. */
  lemma PieceShownIffPresent(p: PlanContent, k: Kind)
    ensures Piece(p, k) != "" <==> Present(p, k)
  {
    if Present(p, k) {
      match k {
        case Intro => assert |RenderKind(p, k)| >= |"## Introduction\n"|;
        case Discovery => assert |RenderKind(p, k)| >= |"## Project Discovery\n"|;
        case Project => assert |RenderKind(p, k)| >= |"## Project\n**Project Name:** "|;
        case EpicList => assert |RenderKind(p, k)| >= |"## Epics\n"|;
        case Approach => assert |RenderKind(p, k)| >= |"## Test Approach\n"|;
        case JiraResults => assert |RenderKind(p, k)| >= |JIRA_HEADER|;
      }
    }
  }

  /** A test-approach entry always opens with its heading, and the heading
      is all there is exactly when the details are empty. */
  lemma ApproachBlockDetails(section: TestApproachSection)
    ensures var heading := "### " + section.name + "\n";
      && StartsWith(ApproachBlock(section), heading)
      && (ApproachBlock(section) == heading <==> section.details == "")
  {
    var heading := "### " + section.name + "\n";
    var block := ApproachBlock(section);
    if section.details != "" {
      assert block == heading + (section.details + "\n\n");
      assert |block| > |heading|;
    } else {
      assert block == heading + "";
    }
    assert block[..|heading|] == heading;
  }

  /** The epics section lists every epic as "- " + epic, in input order, one
      per line (when no epic holds a line break). */
  lemma {:induction false} EpicLinesOnePerLine(epics: seq<string>)
    requires |epics| > 0
    requires forall i :: 0 <= i < |epics| ==> '\n' !in epics[i]
    ensures var lines := Split(Join(EpicLines(epics), "\n"), '\n');
      |lines| == |epics| && forall i :: 0 <= i < |epics| ==> lines[i] == "- " + epics[i]
  {
    var ls := EpicLines(epics);
    forall k | 0 <= k < |ls| ensures '\n' !in ls[k] {
      assert ls[k] == "- " + epics[k];
    }
    SplitJoin(ls, '\n');
  }

  // ---------------------------------------------------------------------
  // Tracker results: stories grouped under their epics
  // ---------------------------------------------------------------------

  /** `issue` is a story whose parent has key `epicKey`. */
  predicate IsChildStory(issue: JiraIssue, epicKey: string) {
    issue.issueType == "Story" && issue.parent.Some? && issue.parent.value.key == epicKey
  }

  predicate IsEpicWithKey(issue: JiraIssue, k: string) {
    issue.issueType == "Epic" && issue.key == k
  }

  /** The keys of the epics, each once, in the order a JavaScript `Map`
      keeps them: first insertion decides the position. */
  function EpicKeys(issues: seq<JiraIssue>): (keys: seq<string>)
    ensures forall k :: k in keys <==> exists i :: 0 <= i < |issues| && IsEpicWithKey(issues[i], k)
    ensures forall a, b :: 0 <= a < b < |keys| ==> keys[a] != keys[b]
  {
    if issues == [] then []
    else
      var init := issues[..|issues| - 1];
      var last := issues[|issues| - 1];
      var keys := EpicKeys(init);
      assert forall k :: (exists i :: 0 <= i < |issues| && IsEpicWithKey(issues[i], k))
                     <==> (exists i :: 0 <= i < |init| && IsEpicWithKey(init[i], k)) || IsEpicWithKey(last, k) by {
        forall k ensures (exists i :: 0 <= i < |issues| && IsEpicWithKey(issues[i], k))
                     ==> (exists i :: 0 <= i < |init| && IsEpicWithKey(init[i], k)) || IsEpicWithKey(last, k) {
          if i :| 0 <= i < |issues| && IsEpicWithKey(issues[i], k) {
            if i < |init| { assert init[i] == issues[i]; }
          }
        }
      }
      if last.issueType == "Epic" && last.key !in keys then keys + [last.key] else keys
  }

  /** Keys are only ever added at the end: the keys of a prefix of the
      results are a prefix of the keys of the whole, which puts the epics in
      the order of their first appearance. */
  lemma {:induction false} EpicKeysPrefix(issues: seq<JiraIssue>, n: nat)
    requires n <= |issues|
    ensures var pre := EpicKeys(issues[..n]); var all := EpicKeys(issues);
      |pre| <= |all| && all[..|pre|] == pre
    decreases |issues| - n
  {
    if n < |issues| {
      EpicKeysPrefix(issues, n + 1);
      assert issues[..n + 1][..n] == issues[..n];
      var pre := EpicKeys(issues[..n]);
      var mid := EpicKeys(issues[..n + 1]);
      assert mid[..|pre|] == pre;
    } else {
      assert issues[..n] == issues;
    }
  }

  /** The stories filed under `epicKey`, in result order. */
  function StoriesOf(issues: seq<JiraIssue>, epicKey: string): (stories: seq<JiraIssue>)
    ensures |stories| <= |issues|
    ensures forall s :: s in stories <==> s in issues && IsChildStory(s, epicKey)
  {
    if issues == [] then []
    else
      var init := issues[..|issues| - 1];
      var last := issues[|issues| - 1];
      assert issues == init + [last];
      StoriesOf(init, epicKey) + (if IsChildStory(last, epicKey) then [last] else [])
  }

  /** A story is listed in the tracker section exactly when its type is
      "Story", it has a parent, and that parent is one of the epics in the
      results. Other issue types and orphan stories never appear. */
  lemma StoryListedIff(issues: seq<JiraIssue>, s: JiraIssue)
    ensures (exists k :: k in EpicKeys(issues) && s in StoriesOf(issues, k))
        <==> (s in issues && s.issueType == "Story" && s.parent.Some? && s.parent.value.key in EpicKeys(issues))
  {
    if s in issues && s.issueType == "Story" && s.parent.Some? && s.parent.value.key in EpicKeys(issues) {
      assert s in StoriesOf(issues, s.parent.value.key);
    }
  }

  /** `jiraResults.find(i => i.key === k)`. */
  function FindByKey(issues: seq<JiraIssue>, k: string): (r: Option<JiraIssue>)
    ensures r.Some? ==> r.value in issues && r.value.key == k
    ensures r.Some? ==> exists i :: 0 <= i < |issues| && issues[i] == r.value && forall j :: 0 <= j < i ==> issues[j].key != k
    ensures r.None? ==> forall i :: 0 <= i < |issues| ==> issues[i].key != k
  {
    if issues == [] then None
    else if issues[0].key == k then Some(issues[0])
    else
      var r := FindByKey(issues[1..], k);
      assert r.Some? ==> exists i :: 0 <= i < |issues| && issues[i] == r.value && forall j :: 0 <= j < i ==> issues[j].key != k by {
        if r.Some? {
          var i :| 0 <= i < |issues| - 1 && issues[1..][i] == r.value && forall j :: 0 <= j < i ==> issues[1..][j].key != k;
          assert issues[i + 1] == r.value;
          forall j | 0 <= j < i + 1 ensures issues[j].key != k {
            if j > 0 {
              assert issues[j] == issues[1..][j - 1];
            }
          }
        }
      }
      r
  }

  /** Every key of the epic map is found again among the results, so no
      entry is skipped when the blocks are rendered. */
  lemma EpicKeyFound(issues: seq<JiraIssue>, k: string)
    requires k in EpicKeys(issues)
    ensures FindByKey(issues, k).Some? && FindByKey(issues, k).value.key == k
  {
    var i :| 0 <= i < |issues| && IsEpicWithKey(issues[i], k);
    assert issues[i].key == k;
  }

  function StoryTitleLine(story: JiraIssue): string {
    "- **" + story.key + "**: " + story.summary + "\n"
  }

  function StatusLine(story: JiraIssue): string {
    "  - Status: " + story.status + "\n"
  }

  /** An optional detail line, present only when the field is. */
  function DetailLine(prefix: string, field: Option<string>): string {
    if field.Some? then prefix + field.value + "\n" else ""
  }

  /** One story of an epic: title and status, then assignee and priority
      when the tracker gave them. */
  function StoryLines(story: JiraIssue): string {
    StoryTitleLine(story) + StatusLine(story)
    + DetailLine("  - Assignee: ", story.assignee) + DetailLine("  - Priority: ", story.priority)
  }

  function StoryList(stories: seq<JiraIssue>): string {
    if stories == [] then ""
    else StoryList(stories[..|stories| - 1]) + StoryLines(stories[|stories| - 1])
  }

  const NO_STORIES_LINE := "\n**No user stories found for this epic.**\n"

  function EpicHeading(epic: JiraIssue): string {
    "### Epic: " + epic.key + " - " + epic.summary + "\n" + "**Status:** " + epic.status + "\n"
  }

  /** The stories under an epic, or the "no stories" line when it has none. */
  function StoriesPart(stories: seq<JiraIssue>): string {
    if |stories| > 0 then "\n**User Stories:**\n" + StoryList(stories) else NO_STORIES_LINE
  }

  /** One epic's block: heading and status, then its stories, or the
      "no stories" line when it has none. */
  function EpicBlock(epic: JiraIssue, stories: seq<JiraIssue>): (block: string)
    ensures StartsWith(block, EpicHeading(epic))
    ensures stories == [] ==> EndsWith(block, NO_STORIES_LINE + "\n")
  {
    EpicHeading(epic) + StoriesPart(stories) + "\n"
  }

  /** The block of one map entry; an entry whose issue cannot be found again
      renders nothing (it always can: its key came from the results). */
  function BlockFor(issues: seq<JiraIssue>, epicKey: string): string {
    match FindByKey(issues, epicKey)
    case None => ""
    case Some(epic) => EpicBlock(epic, StoriesOf(issues, epicKey))
  }

  function EpicBlocks(issues: seq<JiraIssue>, keys: seq<string>): string {
    if keys == [] then ""
    else EpicBlocks(issues, keys[..|keys| - 1]) + BlockFor(issues, keys[|keys| - 1])
  }

  const JIRA_HEADER := "## JIRA Integration Results\n\n"

  /** `generateJiraMarkdown(jiraResults)`: one block per distinct epic key,
      in first-appearance order. */
  function JiraMarkdown(issues: seq<JiraIssue>): string {
    JIRA_HEADER + EpicBlocks(issues, EpicKeys(issues))
  }

  /** First pass of `generateJiraMarkdown`: an empty entry for every epic,
      in an insertion-ordered map. The map is the pair `keys` (its iteration
      order) and `groups` (its entries). */
  method CollectEpics(jiraResults: seq<JiraIssue>) returns (keys: seq<string>, groups: map<string, seq<JiraIssue>>)
    ensures keys == EpicKeys(jiraResults)
    ensures forall k :: k in groups <==> k in keys
    ensures forall k :: k in groups ==> groups[k] == []
  {
    keys := [];
    groups := map[];
    for i := 0 to |jiraResults|
      invariant keys == EpicKeys(jiraResults[..i])
      invariant forall k :: k in groups <==> k in keys
      invariant forall k :: k in groups ==> groups[k] == []
    {
      assert jiraResults[..i + 1][..i] == jiraResults[..i];
      var issue := jiraResults[i];
      if issue.issueType == "Epic" {
        if issue.key !in groups {
          keys := keys + [issue.key];
        }
        groups := groups[issue.key := []];
      }
    }
    assert jiraResults[..|jiraResults|] == jiraResults;
  }

  /** Second pass: every story whose parent has an entry is appended to it. */
  method CollectStories(jiraResults: seq<JiraIssue>, epics: map<string, seq<JiraIssue>>)
    returns (groups: map<string, seq<JiraIssue>>)
    requires forall k :: k in epics ==> epics[k] == []
    ensures groups.Keys == epics.Keys
    ensures forall k :: k in groups ==> groups[k] == StoriesOf(jiraResults, k)
  {
    groups := epics;
    for j := 0 to |jiraResults|
      invariant groups.Keys == epics.Keys
      invariant forall k :: k in groups ==> groups[k] == StoriesOf(jiraResults[..j], k)
    {
      assert jiraResults[..j + 1][..j] == jiraResults[..j];
      var issue := jiraResults[j];
      if issue.issueType == "Story" && issue.parent.Some? {
        var parentKey := issue.parent.value.key;
        if parentKey in groups {
          groups := groups[parentKey := groups[parentKey] + [issue]];
        }
      }
    }
    assert jiraResults[..|jiraResults|] == jiraResults;
  }

  /** The body of the story loop: one story's lines appended. */
  method AppendStory(content: string, story: JiraIssue) returns (result: string)
    ensures result == content + StoryLines(story)
  {
    result := content + "- **" + story.key + "**: " + story.summary + "\n";
    assert result == content + StoryTitleLine(story);
    ghost var title := result;
    result := result + "  - Status: " + story.status + "\n";
    assert result == title + StatusLine(story);
    ghost var status := result;
    if story.assignee.Some? {
      result := result + "  - Assignee: " + story.assignee.value + "\n";
    }
    assert result == status + DetailLine("  - Assignee: ", story.assignee);
    ghost var assignee := result;
    if story.priority.Some? {
      result := result + "  - Priority: " + story.priority.value + "\n";
    }
    assert result == assignee + DetailLine("  - Priority: ", story.priority);
    AppendAssoc5(content, StoryTitleLine(story), StatusLine(story),
      DetailLine("  - Assignee: ", story.assignee), DetailLine("  - Priority: ", story.priority));
  }

  /** The story loop of one epic: each story's lines, in order. */
  method AppendStories(content: string, stories: seq<JiraIssue>) returns (result: string)
    ensures result == content + StoryList(stories)
  {
    result := content;
    for m := 0 to |stories|
      invariant result == content + StoryList(stories[..m])
    {
      StoryListSnoc(stories, m);
      result := AppendStory(result, stories[m]);
    }
    assert stories[..|stories|] == stories;
  }

  lemma StoryListSnoc(stories: seq<JiraIssue>, m: nat)
    requires m < |stories|
    ensures StoryList(stories[..m + 1]) == StoryList(stories[..m]) + StoryLines(stories[m])
  {
    assert stories[..m + 1][..m] == stories[..m];
  }

  /** The body of the rendering loop for one epic and its stories. */
  method AppendEpicBlock(content: string, epic: JiraIssue, stories: seq<JiraIssue>) returns (result: string)
    ensures result == content + EpicBlock(epic, stories)
  {
    result := content + "### Epic: " + epic.key + " - " + epic.summary + "\n";
    result := result + "**Status:** " + epic.status + "\n";
    assert result == content + EpicHeading(epic);
    ghost var head := result;
    if |stories| > 0 {
      result := result + "\n**User Stories:**\n";
      result := AppendStories(result, stories);
    } else {
      result := result + NO_STORIES_LINE;
    }
    assert result == head + StoriesPart(stories);
    result := result + "\n";
    AppendAssoc4(content, EpicHeading(epic), StoriesPart(stories), "\n");
  }

  /** `generateJiraMarkdown(jiraResults)` as written: group, then render the
      map entries in insertion order. */
  method GenerateJiraMarkdown(jiraResults: seq<JiraIssue>) returns (content: string)
    ensures content == JiraMarkdown(jiraResults)
  {
    content := JIRA_HEADER;
    var keys, epics := CollectEpics(jiraResults);
    var groups := CollectStories(jiraResults, epics);
    for t := 0 to |keys|
      invariant content == JIRA_HEADER + EpicBlocks(jiraResults, keys[..t])
    {
      var epicKey := keys[t];
      var stories := groups[epicKey];
      var epic := FindByKey(jiraResults, epicKey);
      ghost var before := content;
      if epic.Some? {
        content := AppendEpicBlock(content, epic.value, stories);
      }
      NextEpicBlock(jiraResults, keys, t, before, content);
    }
    assert keys[..|keys|] == keys;
  }

  /** One turn of the rendering loop adds the block of the next key. */
  lemma NextEpicBlock(issues: seq<JiraIssue>, keys: seq<string>, t: nat, before: string, after: string)
    requires t < |keys|
    requires before == JIRA_HEADER + EpicBlocks(issues, keys[..t])
    requires after == before + BlockFor(issues, keys[t])
    ensures after == JIRA_HEADER + EpicBlocks(issues, keys[..t + 1])
  {
    assert keys[..t + 1][..t] == keys[..t];
    AppendAssoc3(JIRA_HEADER, EpicBlocks(issues, keys[..t]), BlockFor(issues, keys[t]));
  }

  /** Rendering section `order[i]` moves it from the part still to render
      to the text produced so far. */
  lemma Advance(p: PlanContent, order: seq<Kind>, i: nat, before: string, after: string)
    requires i < |order|
    requires after == before + Piece(p, order[i])
    ensures before + RenderFrom(p, order, i) == after + RenderFrom(p, order, i + 1)
  {
    AppendAssoc3(before, Piece(p, order[i]), RenderFrom(p, order, i + 1));
  }

  /** One `if (…) { content += … }` block of `generateMarkdown`: append
      section `k` when its field is non-empty. */
  method AppendSection(content: string, plan: PlanContent, k: Kind) returns (result: string)
    ensures result == content + Piece(plan, k)
  {
    result := content;
    match k {
      case Intro =>
        if plan.introduction != "" {
          result := result + "## Introduction\n" + plan.introduction + "\n\n";
          AppendAssoc4(content, "## Introduction\n", plan.introduction, "\n\n");
        }
      case Discovery =>
        if plan.projectDisco != "" {
          result := result + "## Project Discovery\n" + plan.projectDisco + "\n\n";
          AppendAssoc4(content, "## Project Discovery\n", plan.projectDisco, "\n\n");
        }
      case Project =>
        if plan.projectName != "" {
          result := result + "## Project\n**Project Name:** " + plan.projectName + "\n\n";
          AppendAssoc4(content, "## Project\n**Project Name:** ", plan.projectName, "\n\n");
        }
      case EpicList =>
        if |plan.epics| > 0 {
          result := result + "## Epics\n" + Join(EpicLines(plan.epics), "\n") + "\n\n";
          AppendAssoc4(content, "## Epics\n", Join(EpicLines(plan.epics), "\n"), "\n\n");
        }
      case Approach =>
        if |plan.testApproach| > 0 {
          result := AppendTestApproach(result, plan.testApproach);
        }
      case JiraResults =>
        if |plan.jiraResults| > 0 {
          var jira := GenerateJiraMarkdown(plan.jiraResults);
          result := result + jira;
        }
    }
  }

  /** Appending the six sections of an order one block at a time renders the
      whole order. */
  lemma SixSections(p: PlanContent, order: seq<Kind>, c0: string, c1: string, c2: string,
                    c3: string, c4: string, c5: string, c6: string)
    requires |order| == 6
    requires c1 == c0 + Piece(p, order[0]) && c2 == c1 + Piece(p, order[1])
    requires c3 == c2 + Piece(p, order[2]) && c4 == c3 + Piece(p, order[3])
    requires c5 == c4 + Piece(p, order[4]) && c6 == c5 + Piece(p, order[5])
    ensures c6 == c0 + RenderFrom(p, order, 0)
  {
    Advance(p, order, 0, c0, c1);
    Advance(p, order, 1, c1, c2);
    Advance(p, order, 2, c2, c3);
    Advance(p, order, 3, c3, c4);
    Advance(p, order, 4, c4, c5);
    Advance(p, order, 5, c5, c6);
  }

  /** `generateMarkdown(plan)` as written: the title and generation time,
      then the six section blocks in the export order. */
  method GenerateMarkdown(plan: PlanContent, generated: string) returns (content: string)
    ensures content == Markdown(plan, generated)
  {
    content := "# Test Plan: " + plan.testPlanName + "\n\n";
    content := content + "**Generated:** " + generated + "\n\n";
    ghost var c0 := content;
    content := AppendSection(content, plan, Intro);
    ghost var c1 := content;
    content := AppendSection(content, plan, Discovery);
    ghost var c2 := content;
    content := AppendSection(content, plan, Project);
    ghost var c3 := content;
    content := AppendSection(content, plan, EpicList);
    ghost var c4 := content;
    content := AppendSection(content, plan, Approach);
    ghost var c5 := content;
    content := AppendSection(content, plan, JiraResults);
    SixSections(plan, EXPORT_ORDER, c0, c1, c2, c3, c4, c5, content);
  }

  /** The test-approach part of `generateMarkdown`: the heading, one block
      per section, and a closing blank line. */
  method AppendTestApproach(content: string, sections: seq<TestApproachSection>) returns (result: string)
    ensures result == content + ("## Test Approach\n" + ApproachBlocks(sections) + "\n")
  {
    result := content + "## Test Approach\n";
    ghost var start := result;
    for i := 0 to |sections|
      invariant result == start + ApproachBlocks(sections[..i])
    {
      assert sections[..i + 1][..i] == sections[..i];
      ghost var previous := result;
      var section := sections[i];
      result := result + "### " + section.name + "\n";
      AppendAssoc4(previous, "### ", section.name, "\n");
      if section.details != "" {
        ghost var heading := result;
        result := result + section.details + "\n\n";
        AppendAssoc3(heading, section.details, "\n\n");
      }
      assert result == previous + ApproachBlock(section);
      AppendAssoc3(start, ApproachBlocks(sections[..i]), ApproachBlock(section));
    }
    assert sections[..|sections|] == sections;
    result := result + "\n";
    AppendAssoc4(content, "## Test Approach\n", ApproachBlocks(sections), "\n");
  }

  // ---------------------------------------------------------------------
  // HTML paragraph pass and file name
  // ---------------------------------------------------------------------

  /** One line of the paragraph pass of `markdownToHtml`: headings, list
      markup and blank lines stay as they are, any other line is wrapped in a
      paragraph. */
  function WrapLine(line: string): string {
    if StartsWith(line, "<h") || StartsWith(line, "<ul") || StartsWith(line, "<li") || Trim(line) == "" then line
    else if line != "" then "<p>" + line + "</p>"
    else ""
  }

  /** `html.split("\n").map(WrapLine).join("\n")`: the output has as many
      lines as the input, and line i of the output is line i of the input
      passed through `WrapLine`. */
  function WrapParagraphs(html: string): (r: string)
    ensures var before := Split(html, '\n'); var after := Split(r, '\n');
      |after| == |before| && forall i :: 0 <= i < |before| ==> after[i] == WrapLine(before[i])
  {
    var lines := Split(html, '\n');
    var wrapped := seq(|lines|, i requires 0 <= i < |lines| => WrapLine(lines[i]));
    assert forall i :: 0 <= i < |wrapped| ==> '\n' !in wrapped[i] by {
      forall i | 0 <= i < |wrapped| ensures '\n' !in wrapped[i] {
        WrapLineNoNewline(lines[i]);
      }
    }
    SplitJoin(wrapped, '\n');
    Join(wrapped, "\n")
  }

  /** Wrapping a line adds no line break. */
  lemma WrapLineNoNewline(line: string)
    requires '\n' !in line
    ensures '\n' !in WrapLine(line)
  {
    if WrapLine(line) != line && WrapLine(line) != "" {
      assert WrapLine(line) == "<p>" + line + "</p>";
    }
  }

  /** Every line that is neither heading, list markup nor blank becomes a
      paragraph; the others are left alone. */
  lemma WrapLineCases(line: string)
    ensures (StartsWith(line, "<h") || StartsWith(line, "<ul") || StartsWith(line, "<li") || AllSpace(line))
            ==> WrapLine(line) == line
    ensures !(StartsWith(line, "<h") || StartsWith(line, "<ul") || StartsWith(line, "<li") || AllSpace(line))
            ==> WrapLine(line) == "<p>" + line + "</p>"
  {
    TrimEmptyIffAllSpace(line);
    if line == "" {
      assert AllSpace(line);
    }
  }

  datatype Format = MarkdownFormat | HtmlFormat

  function Extension(format: Format): string {
    if format == MarkdownFormat then "md" else "html"
  }

  /** `generateExportFilename(name, format)`, where `isoNow` stands for
      `new Date().toISOString()` and the date is its part before "T". */
  function ExportFilename(testPlanName: string, format: Format, isoNow: string): (name: string)
    ensures StartsWith(name, CollapseWhitespace(testPlanName) + "_")
    ensures EndsWith(name, "." + Extension(format))
    ensures NoSpace(isoNow) ==> NoSpace(name)
    ensures var prefix := CollapseWhitespace(testPlanName); var ext := Extension(format);
      && |name| >= |prefix| + |ext| + 2
      && var date := name[|prefix| + 1..|name| - |ext| - 1];
         && name == prefix + "_" + date + "." + ext
         && StartsWith(isoNow, date) && 'T' !in date && (date == isoNow || isoNow[|date|] == 'T')
  {
    var date := Split(isoNow, 'T')[0];
    assert StartsWith(isoNow, date) && 'T' !in date && (date == isoNow || isoNow[|date|] == 'T') by {
      SplitFirstPiece(isoNow, 'T');
    }
    assert NoSpace(isoNow) ==> NoSpace(date) by {
      if NoSpace(isoNow) {
        SplitPieceNoSpace(isoNow, 'T');
      }
    }
    var prefix := CollapseWhitespace(testPlanName);
    ExtensionNoSpace(format);
    FilenameShape(prefix, date, Extension(format));
    prefix + "_" + date + "." + Extension(format)
  }

  lemma ExtensionNoSpace(format: Format)
    ensures NoSpace(Extension(format))
  {
  }

  /** How the file name is put together: the name part, "_", the date part,
      ".", the extension, each recoverable by position. */
  lemma FilenameShape(prefix: string, date: string, ext: string)
    ensures var name := prefix + "_" + date + "." + ext;
      && StartsWith(name, prefix + "_") && EndsWith(name, "." + ext)
      && |name| == |prefix| + |date| + |ext| + 2
      && name[|prefix| + 1..|name| - |ext| - 1] == date
      && (NoSpace(prefix) && NoSpace(date) && NoSpace(ext) ==> NoSpace(name))
  {
    var name := prefix + "_" + date + "." + ext;
    assert name[..|prefix| + 1] == prefix + "_";
    assert name[|name| - |ext| - 1..] == "." + ext;
    assert name[|prefix| + 1..|name| - |ext| - 1] == date;
    if NoSpace(prefix) && NoSpace(date) && NoSpace(ext) {
      forall i | 0 <= i < |name| ensures !IsSpace(name[i]) {
        if i < |prefix| {
          assert name[i] == prefix[i];
        } else if i == |prefix| {
          assert name[i] == '_';
        } else if i < |prefix| + 1 + |date| {
          assert name[i] == date[i - |prefix| - 1];
        } else if i == |prefix| + 1 + |date| {
          assert name[i] == '.';
        } else {
          assert name[i] == ext[i - |prefix| - 2 - |date|];
        }
      }
    }
  }

  /** The first piece of a split is a prefix of the string. */
  lemma {:induction false} SplitPieceNoSpace(s: string, c: char)
    requires NoSpace(s)
    ensures NoSpace(Split(s, c)[0])
  {
    if s != [] {
      SplitPieceNoSpace(s[1..], c);
    }
  }

  /** The file name keeps every character of the plan name except its
      whitespace (and underscores), in order, and its date part holds no
      "T". */
  lemma ExportFilenameKeepsName(testPlanName: string, format: Format, isoNow: string)
    ensures var name := ExportFilename(testPlanName, format, isoNow);
      var prefix := CollapseWhitespace(testPlanName);
      && name[..|prefix|] == prefix
      && Visible(prefix) == Visible(testPlanName)
      && 'T' !in name[|prefix| + 1..|name| - |Extension(format)| - 1]
  {
    CollapseKeepsVisible(testPlanName);
    var name := ExportFilename(testPlanName, format, isoNow);
    var prefix := CollapseWhitespace(testPlanName);
    assert name[..|prefix| + 1] == prefix + "_";
    assert name[..|prefix| + 1][..|prefix|] == name[..|prefix|];
    assert (prefix + "_")[..|prefix|] == prefix;
  }
}
