/**
 * The layout of a paged list (commands/paged_reply.go): lines under headings,
 * cut greedily into pages of one embed each. Text is in bytes, as the code
 * counts it.
 */
module PagedReplies {
  import opened Bytes

  const DESCRIPTION_LIMIT := 4096
  const MESSAGE_TEXT_LIMIT := 6000
  const NEWLINE: seq<byte> := [10]

  type Text = seq<byte>

  datatype Line = Line(heading: Text, text: Text)

  /** What a line adds to a page whose last line ran under heading, empty for an empty page. */
  function PageText(heading: Text, l: Line): (t: Text)
    ensures |t| > 0
  {
    if heading == [] then l.heading + NEWLINE + l.text + NEWLINE
    else if l.heading != heading then NEWLINE + l.heading + NEWLINE + l.text + NEWLINE
    else l.text + NEWLINE
  }

  function Last<T>(s: seq<T>): T
    requires s != []
  {
    s[|s| - 1]
  }

  function Front<T>(s: seq<T>): seq<T>
    requires s != []
  {
    s[..|s| - 1]
  }

  function HeadingAfter(group: seq<Line>): Text {
    if group == [] then [] else Last(group).heading
  }

  /** The page a run of lines makes. */
  function Render(group: seq<Line>): Text
    decreases |group|
  {
    if group == [] then [] else Render(Front(group)) + PageText(HeadingAfter(Front(group)), Last(group))
  }

  function RenderAll(groups: seq<seq<Line>>): (pages: seq<Text>)
    ensures |pages| == |groups|
    ensures forall i :: 0 <= i < |groups| ==> pages[i] == Render(groups[i])
  {
    seq(|groups|, i requires 0 <= i < |groups| => Render(groups[i]))
  }

  function Flatten(groups: seq<seq<Line>>): seq<Line>
    decreases |groups|
  {
    if groups == [] then [] else Flatten(Front(groups)) + Last(groups)
  }

  /** The lines, in order and each whole, as pages none of which is empty. */
  ghost predicate IsSplit(groups: seq<seq<Line>>, lines: seq<Line>) {
    && Flatten(groups) == lines
    && forall i :: 0 <= i < |groups| ==> groups[i] != []
  }

  ghost predicate Within(groups: seq<seq<Line>>, limit: int) {
    forall i :: 0 <= i < |groups| ==> |Render(groups[i])| <= limit
  }

  /** A split of the lines into pages of at most limit bytes each. */
  ghost predicate Fitting(groups: seq<seq<Line>>, lines: seq<Line>, limit: int) {
    IsSplit(groups, lines) && Within(groups, limit)
  }

  /** A line fits a page of its own, under its heading. */
  predicate FitsAlone(l: Line, limit: int) {
    |Render([l])| <= limit
  }

  // ---------------------------------------------------------------------------
  // Pages of more lines are longer
  // ---------------------------------------------------------------------------

  lemma RenderOne(l: Line)
    ensures Render([l]) == l.heading + NEWLINE + l.text + NEWLINE
  {
    assert Front([l]) == [];
  }

  lemma RenderMore(group: seq<Line>, l: Line)
    ensures Render(group + [l]) == Render(group) + PageText(HeadingAfter(group), l)
  {
    assert Front(group + [l]) == group;
  }

  /** A page is at least as long as its last line would be alone. */
  lemma {:induction false} RenderCoversLast(group: seq<Line>)
    requires group != []
    ensures |Render(group)| >= |Render([Last(group)])|
    decreases |group|
  {
    RenderOne(Last(group));
    if |group| > 1 {
      RenderCoversLast(Front(group));
      RenderOne(Last(Front(group)));
    }
  }

  /** Starting a page later makes it no longer. */
  lemma {:induction false} RenderSuffix(lines: seq<Line>, early: nat, late: nat)
    requires early <= late < |lines|
    ensures |Render(lines[late..])| <= |Render(lines[early..])|
    decreases |lines|
  {
    hide Render, PageText;
    if early < late {
      var l, n := Last(lines), |lines| - 1;
      assert lines[early..] == lines[early..n] + [l];
      RenderMore(lines[early..n], l);
      if late == n {
        assert lines[late..] == [l];
        RenderCoversLast(lines[early..]);
      } else {
        assert lines[late..] == lines[late..n] + [l];
        RenderMore(lines[late..n], l);
        assert Front(lines)[early..] == lines[early..n] && Front(lines)[late..] == lines[late..n];
        assert HeadingAfter(lines[early..n]) == lines[n - 1].heading == HeadingAfter(lines[late..n]);
        RenderSuffix(Front(lines), early, late);
      }
    }
  }

  /** A page opens with its first line's heading. */
  lemma {:induction false} RenderOpens(group: seq<Line>)
    requires group != []
    ensures group[0].heading + NEWLINE <= Render(group)
    decreases |group|
  {
    if |group| == 1 {
      assert group == [group[0]];
      RenderOne(group[0]);
    } else {
      RenderOpens(Front(group));
    }
  }

  // ---------------------------------------------------------------------------
  // No split does better
  // ---------------------------------------------------------------------------

  lemma FlattenMore(groups: seq<seq<Line>>, group: seq<Line>)
    ensures Flatten(groups + [group]) == Flatten(groups) + group
  {
    assert Front(groups + [group]) == groups;
  }

  /** A fitting split of some lines and one more, without that one. */
  ghost function Shorter(groups: seq<seq<Line>>): seq<seq<Line>>
    requires groups != [] && Last(groups) != []
  {
    if |Last(groups)| == 1 then Front(groups) else Front(groups) + [Front(Last(groups))]
  }

  lemma SplitEnds(groups: seq<seq<Line>>, lines: seq<Line>)
    requires IsSplit(groups, lines) && lines != []
    ensures groups != [] && Last(groups) != [] && |Last(groups)| <= |lines|
    ensures lines == Flatten(Front(groups)) + Last(groups)
    ensures Last(groups) == lines[|lines| - |Last(groups)|..]
  {
  }

  lemma SplitMore(groups: seq<seq<Line>>, group: seq<Line>)
    requires forall i :: 0 <= i < |groups| ==> groups[i] != []
    requires group != []
    ensures IsSplit(groups + [group], Flatten(groups) + group)
  {
    FlattenMore(groups, group);
  }

  lemma WithinMore(groups: seq<seq<Line>>, group: seq<Line>, limit: int)
    ensures Within(groups + [group], limit) <==> Within(groups, limit) && |Render(group)| <= limit
  {
    hide Render;
    var next := groups + [group];
    assert next[|groups|] == group;
    assert forall i :: 0 <= i < |groups| ==> next[i] == groups[i];
  }

  lemma ShorterFits(groups: seq<seq<Line>>, lines: seq<Line>, limit: int)
    requires lines != [] && Fitting(groups, lines, limit)
    ensures groups != [] && Last(groups) != [] && |Last(groups)| <= |lines|
    ensures Last(groups) == lines[|lines| - |Last(groups)|..]
    ensures |Render(Last(groups))| <= limit
    ensures Fitting(Shorter(groups), Front(lines), limit)
  {
    hide Render, PageText, Flatten;
    SplitEnds(groups, lines);
    var last := Last(groups);
    var before := Front(groups);
    if |last| == 1 {
      assert Front(lines) == Flatten(before);
    } else {
      assert Front(lines) == Flatten(before) + Front(last);
      SplitMore(before, Front(last));
      RenderMore(Front(last), Last(last));
      assert last == Front(last) + [Last(last)];
      WithinMore(before, Front(last), limit);
    }
  }

  /**
   * The greedy split stays ahead: no fitting split of the lines so far has
   * fewer pages, and one with as many starts its last page no later.
   */
  ghost predicate Ahead(groups: seq<seq<Line>>, lines: seq<Line>, limit: int) {
    forall other: seq<seq<Line>> :: Fitting(other, lines, limit) ==>
      && |groups| <= |other|
      && (|groups| == |other| && groups != [] ==> |Last(groups)| <= |Last(other)|)
  }

  lemma AheadAppended(groups: seq<seq<Line>>, lines: seq<Line>, l: Line, limit: int)
    requires groups != [] && Ahead(groups, lines, limit)
    ensures Ahead(Front(groups) + [Last(groups) + [l]], lines + [l], limit)
  {
    hide Fitting;
    forall other | Fitting(other, lines + [l], limit)
      ensures |groups| <= |other|
      ensures |groups| == |other| ==> |Last(groups)| + 1 <= |Last(other)|
    {
      ShorterFits(other, lines + [l], limit);
      assert Front(lines + [l]) == lines;
    }
  }

  lemma AheadOpened(groups: seq<seq<Line>>, lines: seq<Line>, l: Line, limit: int)
    requires IsSplit(groups, lines) && Ahead(groups, lines, limit)
    requires groups != [] ==> |Render(Last(groups) + [l])| > limit
    ensures Ahead(groups + [[l]], lines + [l], limit)
  {
    hide Fitting, IsSplit, Render;
    forall other | Fitting(other, lines + [l], limit)
      ensures |groups| + 1 <= |other|
      ensures 1 <= |Last(other)|
    {
      ShorterFits(other, lines + [l], limit);
      assert Front(lines + [l]) == lines;
      if groups != [] && |Last(other)| > |Last(groups)| {
        TooLong(groups, other, lines, l, limit);
      }
    }
  }

  /** A last page that held the greedy one's lines and the next would be too long. */
  lemma TooLong(groups: seq<seq<Line>>, other: seq<seq<Line>>, lines: seq<Line>, l: Line, limit: int)
    requires groups != [] && IsSplit(groups, lines)
    requires |Render(Last(groups) + [l])| > limit
    requires Fitting(other, lines + [l], limit) && other != []
    ensures |Last(other)| <= |Last(groups)|
  {
    hide Render, Flatten;
    var all := lines + [l];
    if lines != [] {
      SplitEnds(groups, lines);
    }
    SplitEnds(other, all);
    var n := |Last(groups)|;
    if n < |Last(other)| {
      assert lines != [] by { GroupsHoldLines(groups, lines); }
      assert all[|all| - n - 1..] == Last(groups) + [l];
      RenderSuffix(all, |all| - |Last(other)|, |all| - n - 1);
      assert false;
    }
  }

  lemma GroupsHoldLines(groups: seq<seq<Line>>, lines: seq<Line>)
    requires groups != [] && IsSplit(groups, lines)
    ensures lines != []
  {
  }

  // ---------------------------------------------------------------------------
  // The greedy layout
  // ---------------------------------------------------------------------------

  function Limit(pageOverhead: int): int {
    if DESCRIPTION_LIMIT < MESSAGE_TEXT_LIMIT - pageOverhead then DESCRIPTION_LIMIT else MESSAGE_TEXT_LIMIT - pageOverhead
  }

  /** Discord takes the page, as a description and with the message's other text. */
  predicate Sendable(page: Text, pageOverhead: int) {
    |page| <= DESCRIPTION_LIMIT && |page| + pageOverhead <= MESSAGE_TEXT_LIMIT
  }

  /** The pages are those of a split of the lines, each opening with its first line's heading. */
  ghost predicate SplitInto(groups: seq<seq<Line>>, lines: seq<Line>, pages: seq<Text>) {
    && IsSplit(groups, lines) && pages == RenderAll(groups)
    && forall i :: 0 <= i < |groups| ==> groups[i][0].heading + NEWLINE <= pages[i]
  }

  /** A split of the lines into pages Discord takes. */
  ghost predicate SendableSplit(groups: seq<seq<Line>>, lines: seq<Line>, pageOverhead: int) {
    IsSplit(groups, lines) && forall i :: 0 <= i < |groups| ==> Sendable(Render(groups[i]), pageOverhead)
  }

  /** The limit is the most bytes Discord takes. */
  lemma LimitIsMost(groups: seq<seq<Line>>, lines: seq<Line>, page: Text, pageOverhead: int)
    ensures |page| <= Limit(pageOverhead) <==> Sendable(page, pageOverhead)
    ensures Fitting(groups, lines, Limit(pageOverhead)) <==> SendableSplit(groups, lines, pageOverhead)
  {
    hide IsSplit, Render;
  }

  /**
   * pagedDescriptions: the pages are a split of the lines, each opening with
   * its first line's heading. Discord takes them all exactly when it takes each
   * line alone, and no split it takes has fewer.
   */
  method PagedDescriptions(lines: seq<Line>, pageOverhead: int) returns (pages: seq<Text>)
    ensures exists groups: seq<seq<Line>> :: SplitInto(groups, lines, pages)
    ensures (forall i :: 0 <= i < |pages| ==> Sendable(pages[i], pageOverhead))
       <==> (forall i :: 0 <= i < |lines| ==> Sendable(Render([lines[i]]), pageOverhead))
    ensures forall other: seq<seq<Line>> :: SendableSplit(other, lines, pageOverhead) ==> |pages| <= |other|
  {
    hide Render, PageText, FitsAlone, Limit, LaidOutTo, Sendable, SendableSplit, Fitting, IsSplit, SplitInto;
    var limit := Limit(pageOverhead);
    pages := [];
    var page: Text := [];
    var heading: Text := [];
    ghost var groups: seq<seq<Line>> := [];
    NoneLaidOut(lines, limit);
    for k := 0 to |lines|
      invariant LaidOutTo(groups, lines, k, limit)
      invariant (groups == [] <==> page == []) && (groups == [] <==> k == 0)
      invariant groups != [] ==> pages == RenderAll(Front(groups)) && page == Render(Last(groups))
      invariant groups == [] ==> pages == []
      invariant heading == if groups == [] then [] else HeadingAfter(Last(groups))
    {
      var l := lines[k];
      var text := PageText(heading, l);
      if |page| > 0 && |page| + |text| > limit {
        RenderMore(Last(groups), l);
        pages := pages + [page];
        page := [];
        heading := [];
        text := PageText(heading, l);
        OpenedNext(groups, lines, k, limit);
        groups := groups + [[l]];
      } else if groups == [] {
        OpenedNext(groups, lines, k, limit);
        groups := groups + [[l]];
      } else {
        RenderMore(Last(groups), l);
        AppendedNext(groups, lines, k, limit);
        groups := Front(groups) + [Last(groups) + [l]];
      }
      page := page + text;
      heading := l.heading;
    }
    if |page| > 0 {
      pages := pages + [page];
    }
    assert pages == RenderAll(groups);
    PagesAreRight(groups, lines, pages, pageOverhead);
  }

  lemma PagesAreRight(groups: seq<seq<Line>>, lines: seq<Line>, pages: seq<Text>, pageOverhead: int)
    requires pages == RenderAll(groups) && LaidOutTo(groups, lines, |lines|, Limit(pageOverhead))
    ensures SplitInto(groups, lines, pages)
    ensures (forall i :: 0 <= i < |pages| ==> Sendable(pages[i], pageOverhead))
       <==> (forall i :: 0 <= i < |lines| ==> Sendable(Render([lines[i]]), pageOverhead))
    ensures forall other: seq<seq<Line>> :: SendableSplit(other, lines, pageOverhead) ==> |pages| <= |other|
  {
    hide Render, RenderAll, IsSplit, SplitInto, LaidOutTo, Limit, Sendable, SendableSplit, Fitting, FitsAlone;
    LaidOut(groups, lines, Limit(pageOverhead));
    LaidOutSendable(groups, lines, pages, pageOverhead);
    PagesOpen(groups, lines, pages);
  }

  lemma PagesOpen(groups: seq<seq<Line>>, lines: seq<Line>, pages: seq<Text>)
    requires IsSplit(groups, lines) && pages == RenderAll(groups)
    ensures SplitInto(groups, lines, pages)
  {
    forall i | 0 <= i < |groups|
      ensures groups[i][0].heading + NEWLINE <= pages[i]
    {
      RenderOpens(groups[i]);
    }
    hide Render, Flatten;
  }

  lemma LaidOutSendable(groups: seq<seq<Line>>, lines: seq<Line>, pages: seq<Text>, pageOverhead: int)
    requires pages == RenderAll(groups)
    requires forall other: seq<seq<Line>> :: Fitting(other, lines, Limit(pageOverhead)) ==> |groups| <= |other|
    requires (forall i :: 0 <= i < |groups| ==> |RenderAll(groups)[i]| <= Limit(pageOverhead))
        <==> (forall i :: 0 <= i < |lines| ==> FitsAlone(lines[i], Limit(pageOverhead)))
    ensures (forall i :: 0 <= i < |pages| ==> Sendable(pages[i], pageOverhead))
       <==> (forall i :: 0 <= i < |lines| ==> Sendable(Render([lines[i]]), pageOverhead))
    ensures forall other: seq<seq<Line>> :: SendableSplit(other, lines, pageOverhead) ==> |pages| <= |other|
  {
    hide Render, Limit, Sendable, SendableSplit, Fitting;
    forall page: Text, other: seq<seq<Line>> {
      LimitIsMost(other, lines, page, pageOverhead);
    }
    assert forall page: Text :: |page| <= Limit(pageOverhead) <==> Sendable(page, pageOverhead);
    assert |pages| == |groups|;
  }

  lemma LaidOut(groups: seq<seq<Line>>, lines: seq<Line>, limit: int)
    requires LaidOutTo(groups, lines, |lines|, limit)
    ensures IsSplit(groups, lines)
    ensures forall other: seq<seq<Line>> :: Fitting(other, lines, limit) ==> |groups| <= |other|
    ensures (forall i :: 0 <= i < |groups| ==> |RenderAll(groups)[i]| <= limit)
       <==> (forall i :: 0 <= i < |lines| ==> FitsAlone(lines[i], limit))
  {
    hide Render;
    assert lines[..|lines|] == lines;
    var pages := RenderAll(groups);
    assert forall i :: 0 <= i < |groups| ==> pages[i] == Render(groups[i]);
  }

  /** What the loop keeps of the pages laid out so far. */
  ghost predicate LaidOutTo(groups: seq<seq<Line>>, lines: seq<Line>, k: nat, limit: int)
    requires k <= |lines|
  {
    && IsSplit(groups, lines[..k])
    && Ahead(groups, lines[..k], limit)
    && (Within(groups, limit) <==> forall i :: 0 <= i < k ==> FitsAlone(lines[i], limit))
  }

  lemma OpenedNext(groups: seq<seq<Line>>, lines: seq<Line>, k: nat, limit: int)
    requires k < |lines| && LaidOutTo(groups, lines, k, limit)
    requires groups != [] ==> |Render(Last(groups) + [lines[k]])| > limit
    ensures LaidOutTo(groups + [[lines[k]]], lines, k + 1, limit)
    ensures Render([lines[k]]) == PageText([], lines[k])
  {
    hide Render, Ahead, Within, PageText, IsSplit, FitsAlone;
    assert lines[..k + 1] == lines[..k] + [lines[k]];
    Opened(groups, lines[..k], lines[k], limit);
    RenderMore([], lines[k]);
    assert [] + [lines[k]] == [lines[k]];
    assert Render([]) + PageText([], lines[k]) == PageText([], lines[k]) by { RenderNone(); }
  }

  lemma NoneLaidOut(lines: seq<Line>, limit: int)
    ensures LaidOutTo([], lines, 0, limit)
  {
  }

  lemma RenderNone()
    ensures Render([]) == []
  {
  }

  lemma AppendedNext(groups: seq<seq<Line>>, lines: seq<Line>, k: nat, limit: int)
    requires k < |lines| && LaidOutTo(groups, lines, k, limit) && groups != []
    requires |Render(Last(groups) + [lines[k]])| <= limit
    ensures LaidOutTo(Front(groups) + [Last(groups) + [lines[k]]], lines, k + 1, limit)
  {
    hide Render, Ahead, Within, PageText, IsSplit, FitsAlone;
    assert lines[..k + 1] == lines[..k] + [lines[k]];
    Appended(groups, lines[..k], lines[k], limit);
  }

  /** A page opened for a line that does not go on the one before. */
  lemma Opened(groups: seq<seq<Line>>, lines: seq<Line>, l: Line, limit: int)
    requires IsSplit(groups, lines) && Ahead(groups, lines, limit)
    requires groups != [] ==> |Render(Last(groups) + [l])| > limit
    ensures var next := groups + [[l]];
            && IsSplit(next, lines + [l]) && Ahead(next, lines + [l], limit)
            && (Within(next, limit) <==> Within(groups, limit) && FitsAlone(l, limit))
  {
    hide Render, Ahead, Within, Flatten;
    SplitMore(groups, [l]);
    AheadOpened(groups, lines, l, limit);
    WithinMore(groups, [l], limit);
  }

  /** A line added to the open page, which has room for it. */
  lemma Appended(groups: seq<seq<Line>>, lines: seq<Line>, l: Line, limit: int)
    requires groups != [] && IsSplit(groups, lines) && Ahead(groups, lines, limit)
    requires |Render(Last(groups) + [l])| <= limit
    ensures var next := Front(groups) + [Last(groups) + [l]];
            && IsSplit(next, lines + [l]) && Ahead(next, lines + [l], limit)
            && (Within(next, limit) <==> Within(groups, limit) && FitsAlone(l, limit))
  {
    hide Render, Ahead, Within, PageText;
    var before, last := Front(groups), Last(groups);
    assert groups == before + [last];
    SplitMore(before, last + [l]);
    assert Flatten(before) + (last + [l]) == lines + [l];
    AheadAppended(groups, lines, l, limit);
    RenderMore(last, l);
    RenderCoversLast(last + [l]);
    WithinMore(before, last, limit);
    WithinMore(before, last + [l], limit);
  }
}
