/** Turning the URLs and addresses of a text node into links: the text is
    conserved, the links keep their order, and the punctuation a URL swallowed
    goes back to the text behind it. The matches themselves come from a regular
    expression and are an input here. */
module AutoLink {
  import opened Common

  /** One match of the scan, where it starts and what it matched. */
  datatype Match = Url(start: nat, text: string) | Email(start: nat, text: string)

  datatype Link = Link(start: nat, length: nat, text: string, href: string)

  datatype Node = Text(text: string) | Anchor(text: string, href: string)

  // ---- Finding the links

  const TRAILING_PUNCTUATION := ['.', '?', ',', ':', '!', ';', '\"', '\'', '<', '>']

  predicate Trails(c: char) { c in TRAILING_PUNCTUATION }

  /** url.sub(/[punctuation]+\z/, "") */
  function CleanUrl(url: string): (r: string)
    ensures r <= url
    ensures forall i :: |r| <= i < |url| ==> Trails(url[i])
    ensures r != "" ==> !Trails(r[|r| - 1])
  {
    if url != "" && Trails(url[|url| - 1]) then CleanUrl(url[..|url| - 1]) else url
  }

  /** Only one way to cut a run of punctuation off the end leaves none there. */
  lemma {:induction false} CleanUrlIsUnique(url: string, r: string)
    requires r <= url && (forall i :: |r| <= i < |url| ==> Trails(url[i])) && (r != "" ==> !Trails(r[|r| - 1]))
    ensures r == CleanUrl(url)
  {
    if r != url {
      CleanUrlIsUnique(url[..|url| - 1], r);
    }
  }

  function LinkOf(m: Match): Link {
    match m
    case Url(start, url) => Link(start, |CleanUrl(url)|, CleanUrl(url), CleanUrl(url))
    case Email(start, email) => Link(start, |email|, email, "mailto:" + email)
  }

  function Links(ms: seq<Match>): (links: seq<Link>)
    ensures |links| == |ms|
  {
    if ms == [] then [] else [LinkOf(ms[0])] + Links(ms[1..])
  }

  /** find_links, over the matches the scan yields. */
  method FindLinks(ms: seq<Match>) returns (links: seq<Link>)
    ensures links == Links(ms)
  {
    links := [];
    for i := 0 to |ms|
      invariant links + Links(ms[i..]) == Links(ms)
    {
      assert ms[i..][1..] == ms[i + 1..];
      match ms[i] {
        case Url(start, text) =>
          var url := CleanUrl(text);
          links := links + [Link(start, |url|, url, url)];
        case Email(start, email) =>
          links := links + [Link(start, |email|, email, "mailto:" + email)];
      }
    }
  }

  /** `s` stands at position `i` of `text`. */
  predicate At(text: string, i: nat, s: string) {
    i + |s| <= |text| && text[i..i + |s|] == s
  }

  /** The matches of one scan from `pos` on: each where it says it is, left to right, without overlap. */
  predicate Scanned(text: string, ms: seq<Match>, pos: nat) {
    if ms == [] then pos <= |text|
    else pos <= ms[0].start && At(text, ms[0].start, ms[0].text) && Scanned(text, ms[1..], MatchEnd(ms[0]))
  }

  function MatchEnd(m: Match): nat { m.start + |m.text| }

  // ---- Cutting the text

  function LinkEnd(l: Link): nat { l.start + l.length }

  /** The links lie in `text` from `pos` on, left to right, without overlap. */
  predicate Placed(text: string, links: seq<Link>, pos: nat) {
    if links == [] then pos <= |text|
    else
      && pos <= links[0].start && |links[0].text| == links[0].length && At(text, links[0].start, links[0].text)
      && Placed(text, links[1..], LinkEnd(links[0]))
  }

  lemma LinkFits(text: string, m: Match)
    requires At(text, m.start, m.text)
    ensures var link := LinkOf(m);
            && link.start == m.start && LinkEnd(link) <= MatchEnd(m) && |link.text| == link.length && At(text, link.start, link.text)
  {
    assert LinkOf(m).text == m.text[..LinkOf(m).length];
  }

  lemma EarlierStart(text: string, ms: seq<Match>, pos: nat, earlier: nat)
    requires Scanned(text, ms, pos) && earlier <= pos
    ensures Scanned(text, ms, earlier)
  {
    hide At;
  }

  lemma {:induction false} LinksArePlaced(text: string, ms: seq<Match>, pos: nat)
    requires Scanned(text, ms, pos)
    ensures Placed(text, Links(ms), pos)
    decreases ms
  {
    hide LinkOf, At;
    if ms != [] {
      var link := LinkOf(ms[0]);
      LinkFits(text, ms[0]);
      EarlierStart(text, ms[1..], MatchEnd(ms[0]), LinkEnd(link));
      LinksArePlaced(text, ms[1..], LinkEnd(link));
      assert Links(ms)[0] == link && Links(ms)[1..] == Links(ms[1..]);
    }
  }

  function Between(text: string, from: nat, to: nat): string
    requires from <= to <= |text|
  {
    text[from..to]
  }

  function Plain(s: string): seq<Node> {
    if s == "" then [] else [Text(s)]
  }

  function AnchorOf(l: Link): Node { Anchor(l.text, l.href) }

  /** The nodes for `text` from `pos` on. */
  function Cut(text: string, links: seq<Link>, pos: nat): seq<Node>
    requires Placed(text, links, pos)
    decreases links
  {
    if links == [] then Plain(Between(text, pos, |text|))
    else Plain(Between(text, pos, links[0].start)) + [AnchorOf(links[0])] + Cut(text, links[1..], LinkEnd(links[0]))
  }

  /** One turn of the loop: the text in front of link `k`, the link, and the rest. */
  lemma CutStep(out: seq<Node>, text: string, links: seq<Link>, k: nat, pos: nat)
    requires k < |links| && Placed(text, links[k..], pos)
    ensures pos <= links[k].start && LinkEnd(links[k]) <= |text| && Placed(text, links[k + 1..], LinkEnd(links[k]))
    ensures out + Plain(Between(text, pos, links[k].start)) + [AnchorOf(links[k])] + Cut(text, links[k + 1..], LinkEnd(links[k]))
         == out + Cut(text, links[k..], pos)
  {
    assert links[k..][0] == links[k] && links[k..][1..] == links[k + 1..];
    hide Between, Plain, AnchorOf;
    var before, anchor, rest := Plain(Between(text, pos, links[k].start)), [AnchorOf(links[k])], Cut(text, links[k + 1..], LinkEnd(links[k]));
    Regroup(out, before + anchor, rest);
    Regroup(out, before, anchor);
  }

  lemma CutEnd(text: string, pos: nat)
    requires Placed(text, [], pos)
    ensures pos <= |text| && Cut(text, [], pos) == Plain(Between(text, pos, |text|))
  {
  }

  /** autolink_text_node: nil without links, otherwise the replacement nodes. */
  method AutolinkText(text: string, ms: seq<Match>) returns (nodes: Option<seq<Node>>)
    requires Scanned(text, ms, 0)
    ensures nodes.None? <==> ms == []
    ensures nodes.Some? ==> Placed(text, Links(ms), 0) && nodes.value == Cut(text, Links(ms), 0)
  {
    var links := FindLinks(ms);
    if links == [] {
      return None;
    }
    LinksArePlaced(text, ms, 0);
    hide Cut, Placed, Scanned, Links;
    var out := CutText(text, links);
    return Some(out);
  }

  method CutText(text: string, links: seq<Link>) returns (out: seq<Node>)
    requires Placed(text, links, 0)
    ensures out == Cut(text, links, 0)
  {
    hide Cut, Placed, Between;
    out := [];
    var pos: nat, k := 0, 0;
    assert links[0..] == links;
    while k < |links|
      invariant k <= |links| && Placed(text, links[k..], pos)
      invariant out + Cut(text, links[k..], pos) == Cut(text, links, 0)
    {
      var link := links[k];
      CutStep(out, text, links, k, pos);
      out := AppendText(out, text, pos, link.start);
      out := out + [Anchor(link.text, link.href)];
      pos, k := LinkEnd(link), k + 1;
    }
    assert links[k..] == [];
    CutEnd(text, pos);
    out := AppendText(out, text, pos, |text|);
  }

  /** nodes << create_text_node, unless the piece is empty. */
  method AppendText(nodes: seq<Node>, text: string, from: nat, to: nat) returns (out: seq<Node>)
    requires from <= to <= |text|
    ensures out == nodes + Plain(Between(text, from, to))
  {
    out := nodes;
    if to > from {
      out := out + [Text(text[from..to])];
    }
  }

  // ---- What the nodes keep

  function Shown(nodes: seq<Node>): string {
    if nodes == [] then "" else nodes[0].text + Shown(nodes[1..])
  }

  function Anchors(nodes: seq<Node>): seq<Node> {
    if nodes == [] then [] else (if nodes[0].Anchor? then [nodes[0]] else []) + Anchors(nodes[1..])
  }

  lemma PieceShows(before: string, anchor: Node, rest: seq<Node>)
    requires anchor.Anchor?
    ensures var nodes := Plain(before) + [anchor] + rest;
            Shown(nodes) == before + anchor.text + Shown(rest) && Anchors(nodes) == [anchor] + Anchors(rest)
  {
    assert ([anchor] + rest)[1..] == rest;
    if before == "" {
      assert Plain(before) + [anchor] + rest == [anchor] + rest;
    } else {
      assert (Plain(before) + [anchor] + rest)[1..] == [anchor] + rest;
    }
  }

  function AnchorsOf(links: seq<Link>): seq<Node> {
    if links == [] then [] else [AnchorOf(links[0])] + AnchorsOf(links[1..])
  }

  lemma PiecesJoin(text: string, pos: nat, start: nat, s: string)
    requires pos <= start && At(text, start, s)
    ensures Between(text, pos, start) + s + Between(text, start + |s|, |text|) == Between(text, pos, |text|)
  {
  }

  /** The nodes read as the text did, and their anchors are the links in order. */
  lemma {:induction false} CutConserves(text: string, links: seq<Link>, pos: nat)
    requires Placed(text, links, pos)
    ensures pos <= |text| && Shown(Cut(text, links, pos)) == Between(text, pos, |text|) && Anchors(Cut(text, links, pos)) == AnchorsOf(links)
    decreases links
  {
    if links != [] {
      var link := links[0];
      assert At(text, link.start, link.text);
      PiecesJoin(text, pos, link.start, link.text);
      CutConserves(text, links[1..], LinkEnd(link));
      hide At, Between;
      PieceShows(Between(text, pos, link.start), AnchorOf(link), Cut(text, links[1..], LinkEnd(link)));
    }
  }

  /** No text node is empty, and no two of them stand side by side. */
  predicate Normal(nodes: seq<Node>) {
    nodes == [] || ((nodes[0].Text? ==> nodes[0].text != "" && (|nodes| > 1 ==> nodes[1].Anchor?)) && Normal(nodes[1..]))
  }

  lemma PieceIsNormal(before: string, anchor: Node, rest: seq<Node>)
    requires anchor.Anchor? && Normal(rest)
    ensures Normal(Plain(before) + [anchor] + rest)
  {
    assert ([anchor] + rest)[1..] == rest;
    if before == "" {
      assert Plain(before) + [anchor] + rest == [anchor] + rest;
    } else {
      assert (Plain(before) + [anchor] + rest)[1..] == [anchor] + rest;
    }
  }

  lemma {:induction false} CutIsNormal(text: string, links: seq<Link>, pos: nat)
    requires Placed(text, links, pos)
    ensures Normal(Cut(text, links, pos))
    decreases links
  {
    if links != [] {
      var rest := Cut(text, links[1..], LinkEnd(links[0]));
      CutIsNormal(text, links[1..], LinkEnd(links[0]));
      hide Normal, Between;
      PieceIsNormal(Between(text, pos, links[0].start), AnchorOf(links[0]), rest);
    }
  }

  /** What clean_url cut off match `m`. */
  function CutOff(m: Match): string {
    if m.Url? then m.text[|CleanUrl(m.text)|..] else ""
  }

  predicate StartsWith(nodes: seq<Node>, cut: string) {
    |nodes| > 0 && nodes[0].Text? && cut <= nodes[0].text
  }

  /** The node behind an anchor whose URL lost punctuation is text that starts with it. */
  ghost predicate Returned(nodes: seq<Node>, i: nat, m: Match) {
    && i < |nodes| && nodes[i] == AnchorOf(LinkOf(m))
    && (CutOff(m) != "" ==> StartsWith(nodes[i + 1..], CutOff(m)))
  }

  lemma CutOffIsBehind(text: string, m: Match)
    requires At(text, m.start, m.text)
    ensures At(text, LinkEnd(LinkOf(m)), CutOff(m)) && LinkEnd(LinkOf(m)) + |CutOff(m)| == MatchEnd(m)
  {
    if m.Url? {
      assert text[LinkEnd(LinkOf(m))..MatchEnd(m)] == m.text[|CleanUrl(m.text)|..];
    }
  }

  /** Text in front of the next link, or of the end, begins the nodes. */
  lemma GapStartsText(text: string, links: seq<Link>, pos: nat, cut: string)
    requires Placed(text, links, pos) && Placed(text, links, pos + |cut|) && At(text, pos, cut) && cut != ""
    ensures StartsWith(Cut(text, links, pos), cut)
  {
    var end := if links == [] then |text| else links[0].start;
    assert pos + |cut| <= end <= |text|;
    assert cut <= Between(text, pos, end);
  }

  /** Text follows an anchor wherever its URL was cut. */
  lemma CutOffFollows(text: string, m: Match, rest: seq<Match>)
    requires At(text, m.start, m.text) && CutOff(m) != ""
    requires Scanned(text, rest, MatchEnd(m)) && Placed(text, Links(rest), LinkEnd(LinkOf(m)))
    ensures StartsWith(Cut(text, Links(rest), LinkEnd(LinkOf(m))), CutOff(m))
  {
    hide At, StartsWith, Scanned, LinkOf, CutOff, Links, Cut, Placed;
    CutOffIsBehind(text, m);
    LinksArePlaced(text, rest, MatchEnd(m));
    GapStartsText(text, Links(rest), LinkEnd(LinkOf(m)), CutOff(m));
  }

  /** The first piece and what follows it. */
  lemma CutFront(text: string, ms: seq<Match>, pos: nat)
    requires Scanned(text, ms, pos) && ms != [] && Placed(text, Links(ms), pos)
    ensures var link := LinkOf(ms[0]);
            && pos <= link.start <= |text| && At(text, ms[0].start, ms[0].text)
            && Scanned(text, ms[1..], MatchEnd(ms[0])) && Scanned(text, ms[1..], LinkEnd(link)) && Placed(text, Links(ms[1..]), LinkEnd(link))
            && Cut(text, Links(ms), pos) == Plain(Between(text, pos, link.start)) + [AnchorOf(link)] + Cut(text, Links(ms[1..]), LinkEnd(link))
  {
    hide LinkOf, Between, Plain;
    assert Links(ms)[0] == LinkOf(ms[0]) && Links(ms)[1..] == Links(ms[1..]);
    LinkFits(text, ms[0]);
    EarlierStart(text, ms[1..], MatchEnd(ms[0]), LinkEnd(LinkOf(ms[0])));
  }

  lemma {:induction false} PunctuationReturns(text: string, ms: seq<Match>, pos: nat, k: nat)
    requires Scanned(text, ms, pos) && k < |ms| && Placed(text, Links(ms), pos)
    ensures exists i: nat :: Returned(Cut(text, Links(ms), pos), i, ms[k])
    decreases k
  {
    hide At, Links, Cut, Placed, Scanned, CutOff, LinkOf, Between, Plain, StartsWith;
    CutFront(text, ms, pos);
    var link := LinkOf(ms[0]);
    var front := Plain(Between(text, pos, link.start)) + [AnchorOf(link)];
    var rest := Cut(text, Links(ms[1..]), LinkEnd(link));
    if k == 0 {
      if CutOff(ms[0]) != "" {
        CutOffFollows(text, ms[0], ms[1..]);
      }
      ReturnedHere(front, rest, ms[0]);
    } else {
      PunctuationReturns(text, ms[1..], LinkEnd(link), k - 1);
      var i: nat :| Returned(rest, i, ms[k]);
      ReturnedLater(front, rest, i, ms[k]);
    }
  }

  lemma ReturnedHere(front: seq<Node>, rest: seq<Node>, m: Match)
    requires front != [] && front[|front| - 1] == AnchorOf(LinkOf(m)) && (CutOff(m) != "" ==> StartsWith(rest, CutOff(m)))
    ensures Returned(front + rest, |front| - 1, m)
  {
    assert (front + rest)[|front|..] == rest;
  }

  lemma ReturnedLater(front: seq<Node>, rest: seq<Node>, i: nat, m: Match)
    requires Returned(rest, i, m)
    ensures Returned(front + rest, |front| + i, m)
  {
    assert (front + rest)[|front| + i + 1..] == rest[i + 1..];
  }

  // ---- The document

  datatype Html = Leaf(text: string) | Element(name: string, children: seq<Html>) | Linked(text: string, href: string)

  const EXCLUDED := ["a", "figcaption", "pre", "code"]

  /** The matches a scan finds in each text; whatever they are, they are `Scanned`. */
  ghost predicate Scanner(scan: string -> seq<Match>) {
    forall text {:trigger scan(text)} :: Scanned(text, scan(text), 0)
  }

  /** The nodes that stand where `text` stood. */
  ghost function Replacement(text: string, scan: string -> seq<Match>): seq<Html>
    requires Scanner(scan)
  {
    var ms := scan(text);
    LinksArePlaced(text, ms, 0);
    if ms == [] then [Leaf(text)] else Imported(Cut(text, Links(ms), 0))
  }

  function Imported(nodes: seq<Node>): seq<Html> {
    seq(|nodes|, i requires 0 <= i < |nodes| => match nodes[i] case Text(t) => Leaf(t) case Anchor(t, href) => Linked(t, href))
  }

  /** Top down: an excluded element is left alone with everything below it. */
  ghost function Scrub(node: Html, scan: string -> seq<Match>): seq<Html>
    requires Scanner(scan)
    decreases node, 0
  {
    match node
    case Leaf(text) => Replacement(text, scan)
    case Element(name, children) => if name in EXCLUDED then [node] else [Element(name, ScrubAll(children, scan))]
    case Linked(_, _) => [node]
  }

  ghost function ScrubAll(nodes: seq<Html>, scan: string -> seq<Match>): seq<Html>
    requires Scanner(scan)
    decreases nodes, 1
  {
    if nodes == [] then [] else Scrub(nodes[0], scan) + ScrubAll(nodes[1..], scan)
  }

  function Content(node: Html): string
    decreases node, 0
  {
    match node
    case Leaf(text) => text
    case Linked(text, _) => text
    case Element(_, children) => ContentOfAll(children)
  }

  function ContentOfAll(nodes: seq<Html>): string
    decreases nodes, 1
  {
    if nodes == [] then "" else Content(nodes[0]) + ContentOfAll(nodes[1..])
  }

  lemma {:induction false} ContentOfTwo(a: seq<Html>, b: seq<Html>)
    ensures ContentOfAll(a + b) == ContentOfAll(a) + ContentOfAll(b)
  {
    hide Content;
    if a == [] {
      assert a + b == b;
    } else {
      ContentOfTwo(a[1..], b);
      assert (a + b)[0] == a[0] && (a + b)[1..] == a[1..] + b;
    }
  }

  lemma {:induction false} ImportedShows(nodes: seq<Node>)
    ensures ContentOfAll(Imported(nodes)) == Shown(nodes)
  {
    if nodes != [] {
      ImportedShows(nodes[1..]);
      assert Imported(nodes)[1..] == Imported(nodes[1..]);
    }
  }

  /** Auto-linking a document never changes what it says. */
  lemma {:induction false} ScrubConserves(node: Html, scan: string -> seq<Match>)
    requires Scanner(scan)
    ensures ContentOfAll(Scrub(node, scan)) == Content(node)
    decreases node, 0
  {
    match node
    case Leaf(text) =>
      var ms := scan(text);
      if ms != [] {
        LinksArePlaced(text, ms, 0);
        CutConserves(text, Links(ms), 0);
        ImportedShows(Cut(text, Links(ms), 0));
      }
    case Element(name, children) =>
      if name !in EXCLUDED {
        ScrubAllConserves(children, scan);
      }
    case Linked(_, _) =>
  }

  lemma {:induction false} ScrubAllConserves(nodes: seq<Html>, scan: string -> seq<Match>)
    requires Scanner(scan)
    ensures ContentOfAll(ScrubAll(nodes, scan)) == ContentOfAll(nodes)
    decreases nodes, 1
  {
    if nodes != [] {
      ScrubConserves(nodes[0], scan);
      ScrubAllConserves(nodes[1..], scan);
      ContentOfTwo(Scrub(nodes[0], scan), ScrubAll(nodes[1..], scan));
    }
  }
}
