/** The strategy page: the status badge, the detail view's buttons, and the
    formatter that turns a strategy's text into HTML, block by block. */
module StrategyView {
  import opened Js
  import opened Seqs
  import opened Db
  import opened View
  import opened Effects
  import StrategyRoutes

  /** `getStatusBadge` of the strategy page. */
  function StatusBadge(status: string): (b: Badge)
    ensures b.text == Capitalize(status)
  {
    var cls := match status
      case "draft" => "bg-secondary"
      case "active" => "bg-success"
      case "archived" => "bg-dark"
      case _ => "bg-secondary";
    Badge(cls, Capitalize(status))
  }

  /** The three strategy states have three different classes; a status
      outside them looks like a draft. */
  lemma StatusBadgesDistinguish(s1: string, s2: string)
    ensures s1 in StrategyRoutes.StrategyStatuses && s2 in StrategyRoutes.StrategyStatuses && s1 != s2
            ==> StatusBadge(s1).cls != StatusBadge(s2).cls
    ensures s1 !in StrategyRoutes.StrategyStatuses ==> StatusBadge(s1).cls == StatusBadge("draft").cls
  {
  }

  // ---------------------------------------------------------------------
  // detail view

  datatype Button = Approve | Edit

  /** The footer buttons of `displayStrategyDetails`. */
  function DetailButtons(s: Strategy): (bs: seq<Button>)
    ensures Edit in bs
    ensures Approve in bs <==> s.status == "draft"
  {
    (if s.status == "draft" then [Approve] else []) + [Edit]
  }

  /** A strategy just generated is a draft, so it can be approved. */
  lemma GeneratedStrategyCanBeApproved(st: Store, companyId: Option<string>, userId: Option<string>,
                                       fault: Option<DbError>, agent: AgentReply, ins: Insert, delivered: bool,
                                       now: int, fmt: NumberText)
    ensures var o := StrategyRoutes.Generate(st, companyId, userId, fault, agent, ins, delivered, now, fmt);
      o.reply.Ok? ==> Approve in DetailButtons(o.reply.data)
  {
  }

  /** Approving sends "active", which the server accepts; the row it returns
      no longer offers the button. */
  lemma ApproveAccepted(st: Store, s: Strategy, now: int)
    requires s in st.strategies && Approve in DetailButtons(s)
    ensures var o := StrategyRoutes.UpdateStatus(st, s.id, Some("active"), now, None);
      && o.reply.Ok? && o.reply.data.Some?
      && Approve !in DetailButtons(o.reply.data.value)
  {
    var f := StrategyRoutes.SetStrategyStatus("active", now);
    var updated := Replace(st.strategies, StrategyIdIs(s.id), f);
    var k :| 0 <= k < |st.strategies| && st.strategies[k] == s;
    assert updated[k] in updated;
    FilterMembers(updated, StrategyIdIs(s.id));
    var rows := Filter(updated, StrategyIdIs(s.id));
    assert updated[k] in rows;
    assert rows[0] in updated;
    var j :| 0 <= j < |updated| && updated[j] == rows[0];
    assert rows[0].status == "active";
  }

  // ---------------------------------------------------------------------
  // formatStrategyContent

  /** The number of characters `s` starts with that satisfy `p`. */
  function Run(s: string, p: char -> bool): (n: nat)
    ensures n <= |s|
    ensures forall k :: 0 <= k < n ==> p(s[k])
    ensures n == |s| || !p(s[n])
  {
    if |s| > 0 && p(s[0]) then 1 + Run(s[1..], p) else 0
  }

  predicate IsHash(c: char) {
    c == '#'
  }

  function Hashes(n: nat): (r: string)
    ensures |r| == n && forall k :: 0 <= k < n ==> r[k] == '#'
  {
    seq(n, _ => '#')
  }

  /** A whole list marker: `-`, or digits and a dot, then one white-space
      character. */
  predicate IsMarker(m: string) {
    |m| >= 2 && IsSpace(m[|m| - 1])
    && ((|m| == 2 && m[0] == '-')
        || (|m| >= 3 && m[|m| - 2] == '.' && forall k :: 0 <= k < |m| - 2 ==> IsDigit(m[k])))
  }

  /** The length of the marker matched by `/^\d+\.\s/` or `/^-\s/`, or 0. */
  function MarkerLength(s: string): (n: nat)
    ensures n <= |s|
    ensures n > 0 ==> IsMarker(s[..n])
  {
    var d := Run(s, IsDigit);
    if 0 < d && d + 1 < |s| && s[d] == '.' && IsSpace(s[d + 1]) then d + 2
    else if 2 <= |s| && s[0] == '-' && IsSpace(s[1]) then 2
    else 0
  }

  /** A line that starts with a marker is recognised by exactly that marker. */
  lemma MarkerFound(m: string, t: string)
    requires IsMarker(m)
    ensures MarkerLength(m + t) == |m|
  {
    var s := m + t;
    if m[0] != '-' {
      assert s[|m| - 2] == '.' && forall k :: 0 <= k < |m| - 2 ==> IsDigit(s[k]);
      assert Run(s, IsDigit) == |m| - 2;
    }
  }

  /** A line `MarkerLength` finds nothing in starts with no marker at all. */
  lemma NoMarker(s: string)
    requires MarkerLength(s) == 0
    ensures forall k :: 0 <= k <= |s| ==> !IsMarker(s[..k])
  {
    forall k | 0 <= k <= |s| && IsMarker(s[..k]) ensures false {
      assert s[..k] + s[k..] == s;
      MarkerFound(s[..k], s[k..]);
    }
  }

  /** `item.replace(/^(\d+\.|-)\s/, '')`. */
  function Unmark(line: string): (r: string)
    ensures MarkerLength(line) == 0 ==> r == line
    ensures |r| <= |line| && line[|line| - |r|..] == r
  {
    line[MarkerLength(line)..]
  }

  function UnmarkAll(lines: seq<string>): (r: seq<string>)
    ensures |r| == |lines| && forall i :: 0 <= i < |lines| ==> r[i] == Unmark(lines[i])
  {
    seq(|lines|, i requires 0 <= i < |lines| => Unmark(lines[i]))
  }

  datatype Block = Heading(level: nat, text: string) | Items(items: seq<string>) | Para(text: string)

  /** How one paragraph is read: a leading `#` makes a heading whose level is
      the run of `#`s and whose text follows the white space after them; a
      leading list marker makes a list of the paragraph's lines, each without
      its own marker; anything else is a paragraph. */
  function Classify(p: string): (b: Block)
    ensures b.Heading? <==> |p| > 0 && p[0] == '#'
    ensures b.Heading? ==>
      && 1 <= b.level <= |p| - |b.text|
      && p[..b.level] == Hashes(b.level) && (b.level == |p| || p[b.level] != '#')
      && p[|p| - |b.text|..] == b.text
      && (forall k :: b.level <= k < |p| - |b.text| ==> IsSpace(p[k]))
      && (b.text == [] || !IsSpace(b.text[0]))
    ensures b.Items? <==> !b.Heading? && MarkerLength(p) > 0
    ensures b.Items? ==> |b.items| == |Split(p, "\n")|
    ensures b.Para? ==> b.text == p
  {
    if |p| > 0 && p[0] == '#' then
      var level := Run(p, IsHash);
      var rest := p[level..];
      Heading(level, rest[LeadingSpaces(rest)..])
    else if MarkerLength(p) > 0 then
      Items(UnmarkAll(Split(p, "\n")))
    else Para(p)
  }

  /** Writing a heading back as `#`s, white space and text reads as that
      heading, provided the text does not itself begin with white space, or
      with `#` right after the `#`s. */
  lemma ClassifyHeading(level: nat, sp: string, text: string)
    requires level >= 1
    requires forall k :: 0 <= k < |sp| ==> IsSpace(sp[k])
    requires text == [] || !IsSpace(text[0])
    requires sp == [] && text != [] ==> text[0] != '#'
    ensures Classify(Hashes(level) + sp + text) == Heading(level, text)
  {
    var p := Hashes(level) + sp + text;
    assert p[0] == '#';
    assert forall k :: 0 <= k < level ==> IsHash(p[k]);
    assert level < |p| ==> !IsHash(p[level]) by {
      if level < |p| {
        if sp != [] { assert p[level] == sp[0]; } else { assert p[level] == text[0]; }
      }
    }
    assert Run(p, IsHash) == level;
    var rest := p[level..];
    assert rest == sp + text;
    assert LeadingSpaces(rest) == |sp| by {
      assert forall k :: 0 <= k < |sp| ==> IsSpace(rest[k]);
      assert |sp| < |rest| ==> rest[|sp|] == text[0];
    }
    assert rest[|sp|..] == text;
  }

  /** The lines of a list written back: each a marker and its text. */
  function Lines(markers: seq<string>, texts: seq<string>): (lines: seq<string>)
    requires |markers| == |texts|
    ensures |lines| == |texts| && forall i :: 0 <= i < |texts| ==> lines[i] == markers[i] + texts[i]
  {
    seq(|texts|, i requires 0 <= i < |texts| => markers[i] + texts[i])
  }

  /** Joined lines start with the first line. */
  lemma JoinStartsWith(lines: seq<string>, sep: string)
    requires |lines| >= 1
    ensures exists tail :: Join(lines, sep) == lines[0] + tail
  {
    if |lines| > 1 {
      var tail := sep + Join(lines[1..], sep);
      assert Join(lines, sep) == lines[0] + tail;
    } else {
      assert Join(lines, sep) == lines[0] + [];
    }
  }

  predicate OneLine(s: string) {
    forall k :: 0 <= k < |s| ==> s[k] != '\n'
  }

  /** Each written-back line loses exactly its marker. */
  lemma UnmarkLines(markers: seq<string>, texts: seq<string>)
    requires |markers| == |texts|
    requires forall i :: 0 <= i < |markers| ==> IsMarker(markers[i])
    ensures UnmarkAll(Lines(markers, texts)) == texts
  {
    var lines := Lines(markers, texts);
    forall i | 0 <= i < |lines| ensures Unmark(lines[i]) == texts[i] {
      MarkerFound(markers[i], texts[i]);
    }
  }

  /** Lines without a newline, joined by newlines, split back into themselves. */
  lemma SplitLines(lines: seq<string>)
    requires |lines| >= 1 && forall i :: 0 <= i < |lines| ==> OneLine(lines[i])
    ensures Split(Join(lines, "\n"), "\n") == lines
  {
    forall i | 0 <= i < |lines| ensures CutsCleanly(lines[i], "\n") && !Contains(lines[i], "\n") {
      NoCharCut(lines[i], '\n');
    }
    SplitJoin(lines, "\n");
  }

  /** A paragraph that opens with a list marker and no `#` is a list. */
  lemma ClassifyList(p: string)
    requires |p| > 0 && p[0] != '#' && MarkerLength(p) > 0
    ensures Classify(p) == Items(UnmarkAll(Split(p, "\n")))
  {
  }

  /** Writing list lines back, each a marker and its text, reads as the list
      of those texts. */
  lemma ClassifyItems(markers: seq<string>, texts: seq<string>)
    requires |markers| == |texts| >= 1
    requires forall i :: 0 <= i < |markers| ==> IsMarker(markers[i]) && OneLine(markers[i] + texts[i])
    ensures Classify(Join(Lines(markers, texts), "\n")) == Items(texts)
  {
    var lines := Lines(markers, texts);
    SplitLines(lines);
    ListOpens(markers, texts);
    ClassifyList(Join(lines, "\n"));
    UnmarkLines(markers, texts);
  }

  /** Written-back list lines open with the first line's marker. */
  lemma ListOpens(markers: seq<string>, texts: seq<string>)
    requires |markers| == |texts| >= 1 && IsMarker(markers[0])
    ensures var p := Join(Lines(markers, texts), "\n");
      |p| > 0 && p[0] != '#' && MarkerLength(p) > 0
  {
    var lines := Lines(markers, texts);
    var p := Join(lines, "\n");
    JoinStartsWith(lines, "\n");
    var tail :| p == lines[0] + tail;
    assert p == markers[0] + (texts[0] + tail);
    MarkerFound(markers[0], texts[0] + tail);
    assert p[0] == markers[0][0];
  }

  function Tag(name: string, inner: string): string {
    "<" + name + ">" + inner + "</" + name + ">"
  }

  function ItemsHtml(items: seq<string>): string {
    if |items| == 0 then "" else Tag("li", items[0]) + ItemsHtml(items[1..])
  }

  /** A heading of level n is an `h` element of rank n + 2. */
  function BlockHtml(b: Block): string {
    match b
    case Heading(level, text) => Tag("h" + NatToString(level + 2), text)
    case Items(items) => Tag("ul", ItemsHtml(items))
    case Para(text) => Tag("p", text)
  }

  function FormatBlocks(paragraphs: seq<string>): string {
    if |paragraphs| == 0 then "" else BlockHtml(Classify(paragraphs[0])) + FormatBlocks(paragraphs[1..])
  }

  /** `formatStrategyContent`: the blank-line-separated paragraphs, each
      formatted on its own, in order. The text goes into the HTML as it is,
      without escaping. */
  function Format(content: string): string {
    FormatBlocks(Split(content, "\n\n"))
  }

  /** A text without a blank line is one block. */
  lemma FormatSingle(a: string)
    requires !Contains(a, "\n\n")
    ensures Format(a) == BlockHtml(Classify(a))
  {
    assert IndexOf(a, "\n\n").None?;
    assert Split(a, "\n\n") == [a];
    assert FormatBlocks([a]) == BlockHtml(Classify(a)) + FormatBlocks([]);
  }

  /** The first paragraph is formatted on its own and the rest after it. */
  lemma FormatFirst(a: string, b: string)
    requires !Contains(a, "\n\n")
    requires a == [] || a[|a| - 1] != '\n'
    ensures Format(a + "\n\n" + b) == BlockHtml(Classify(a)) + Format(b)
  {
    BlankLineCut(a);
    SplitAfter(a, "\n\n", b);
    assert ([a] + Split(b, "\n\n"))[1..] == Split(b, "\n\n");
  }

  /** Paragraphs without a blank line inside, none but the last ending in a
      newline, joined by blank lines, are formatted one by one: the page shows
      one block per paragraph, in order. */
  lemma {:induction false} FormatJoin(paragraphs: seq<string>)
    requires |paragraphs| >= 1
    requires forall i :: 0 <= i < |paragraphs| ==> !Contains(paragraphs[i], "\n\n")
    requires forall i :: 0 <= i < |paragraphs| - 1 ==> paragraphs[i] == [] || paragraphs[i][|paragraphs[i]| - 1] != '\n'
    ensures Format(Join(paragraphs, "\n\n")) == FormatBlocks(paragraphs)
    decreases |paragraphs|
  {
    if |paragraphs| == 1 {
      FormatSingle(paragraphs[0]);
      assert FormatBlocks(paragraphs) == BlockHtml(Classify(paragraphs[0])) + FormatBlocks([]);
    } else {
      var rest := paragraphs[1..];
      FormatJoin(rest);
      FormatFirst(paragraphs[0], Join(rest, "\n\n"));
      assert Join(paragraphs, "\n\n") == paragraphs[0] + "\n\n" + Join(rest, "\n\n");
    }
  }

  /** Plain text with neither a heading mark nor a list marker, and no blank
      line, is one paragraph holding the text unchanged. */
  lemma FormatParagraph(a: string)
    requires !Contains(a, "\n\n")
    requires (a == [] || a[0] != '#') && MarkerLength(a) == 0
    ensures Format(a) == "<p>" + a + "</p>"
  {
    FormatSingle(a);
    assert Classify(a) == Para(a);
    assert BlockHtml(Para(a)) == Tag("p", a) == "<p>" + a + "</p>";
  }
}
