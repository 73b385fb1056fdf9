/** The TOC nesting builder of presentTOC: a flat, ordered list of sections becomes a
    stream of list tags, one `<ul>` per level gone up, one `</ul>` per level come down,
    and one `<li>` per section. */
module TocBuilder {
  import opened Wrappers

  /** One entry of the API's `parse.sections`; `level` is `parseInt(toclevel)`. */
  datatype Section = Section(level: int, number: string, line: string, anchor: string)

  /** The pieces the builder appends to its markup string: the outer
      `<ul class="toc-list">`, a nested `<ul>`, a `</ul>`, and one `<li>` entry. */
  datatype Token = ListOpen | Open | Close | Item(href: string, number: string, line: string)

  function Repeat(t: Token, n: nat): seq<Token> {
    if n == 0 then [] else Repeat(t, n - 1) + [t]
  }

  /** The level cursor once `sections` have been processed; it starts at 1. */
  function Cursor(sections: seq<Section>): int {
    if sections == [] then 1 else sections[|sections| - 1].level
  }

  /** The tags that move the cursor from `from` to `to`. */
  function Steps(from: int, to: int): seq<Token> {
    if from <= to then Repeat(Open, to - from) else Repeat(Close, from - to)
  }

  /** The entry for a section: a link to `pageUrl#anchor` with its number and heading,
      all inserted verbatim. */
  function ItemFor(pageUrl: string, s: Section): Token {
    Item(pageUrl + "#" + s.anchor, s.number, s.line)
  }

  /** What the loop has appended after the outer `<ul>` once `sections` are processed. */
  function Body(pageUrl: string, sections: seq<Section>): seq<Token>
    decreases |sections|
  {
    if sections == [] then []
    else
      var init := sections[..|sections| - 1];
      Body(pageUrl, init) + Steps(Cursor(init), sections[|sections| - 1].level)
      + [ItemFor(pageUrl, sections[|sections| - 1])]
  }

  lemma StepUp(from: int, to: int)
    requires from <= to
    ensures Steps(from, to + 1) == Steps(from, to) + [Open]
  {
  }

  lemma StepDown(from: int, to: int)
    requires to <= from
    ensures Steps(from, to - 1) == Steps(from, to) + [Close]
  {
    if to == from {
      assert Steps(from, to) == [];
      assert Steps(from, to - 1) == Repeat(Close, 1) == [Close];
    }
  }

  /** One more section: the steps from the cursor to its level, then its entry. */
  lemma BodySnoc(pageUrl: string, sections: seq<Section>, s: Section)
    ensures Body(pageUrl, sections + [s])
            == Body(pageUrl, sections) + Steps(Cursor(sections), s.level) + [ItemFor(pageUrl, s)]
    ensures Cursor(sections + [s]) == s.level
  {
    assert (sections + [s])[..|sections|] == sections;
  }

  /** The loop's accumulator after section `i`, from the one before it. */
  lemma NextPrefix(pageUrl: string, sections: seq<Section>, i: nat)
    requires i < |sections|
    ensures [ListOpen] + Body(pageUrl, sections[..i + 1])
            == [ListOpen] + Body(pageUrl, sections[..i])
               + Steps(Cursor(sections[..i]), sections[i].level) + [ItemFor(pageUrl, sections[i])]
    ensures Cursor(sections[..i + 1]) == sections[i].level
  {
    assert sections[..i + 1] == sections[..i] + [sections[i]];
    BodySnoc(pageUrl, sections[..i], sections[i]);
  }

  /** The whole token stream: the outer list, the body, and one single closing tag. */
  function Toc(pageUrl: string, sections: seq<Section>): seq<Token> {
    [ListOpen] + Body(pageUrl, sections) + [Close]
  }

  /** presentTOC's loop: a cursor stepped up and down one level at a time, and an
      accumulator of tags. */
  method PresentToc(pageUrl: string, sections: seq<Section>) returns (tokens: seq<Token>)
    ensures tokens == Toc(pageUrl, sections)
  {
    tokens := [ListOpen];
    var currentLevel := 1;
    for i := 0 to |sections|
      invariant currentLevel == Cursor(sections[..i])
      invariant tokens == [ListOpen] + Body(pageUrl, sections[..i])
    {
      var level := sections[i].level;
      ghost var start, before := currentLevel, tokens;
      ghost var top := if start < level then level else start;
      while currentLevel < level
        invariant start <= currentLevel <= top
        invariant tokens == before + Steps(start, currentLevel)
      {
        StepUp(start, currentLevel);
        currentLevel := currentLevel + 1;
        tokens := tokens + [Open];
      }
      while currentLevel > level
        invariant level <= currentLevel <= top
        invariant tokens == before + Steps(start, currentLevel)
      {
        StepDown(start, currentLevel);
        currentLevel := currentLevel - 1;
        tokens := tokens + [Close];
      }
      tokens := tokens + [ItemFor(pageUrl, sections[i])];
      NextPrefix(pageUrl, sections, i);
    }
    assert sections[..|sections|] == sections;
    tokens := tokens + [Close];
  }

  // ---------------------------------------------------------------------------
  // The markup text

  /** The text appended for each token, exactly as the source's literals write it. The
      list tokens are their bare tags; an entry is one `<li>` element whose href, number
      and heading can be read back at fixed offsets, after the template's line breaks and
      indentation (36 spaces before `<a`, 39 before the number's `<span` and the heading). */
  function TokenMarkup(t: Token): (r: string)
    ensures t.ListOpen? ==> r == "<ul class=\"toc-list\">"
    ensures t.Open? ==> r == "<ul>"
    ensures t.Close? ==> r == "</ul>"
    ensures t.Item? ==>
              var h, n, l := |t.href|, |t.number|, |t.line|;
              && |r| == 256 + h + n + l
              && r[..4] == "<li>" && r[|r| - 5..] == "</li>"
              && r[50..50 + h] == t.href
              && r[129 + h..129 + h + n] == t.number
              && r[176 + h + n..176 + h + n + l] == t.line
  {
    match t
    case ListOpen => "<ul class=\"toc-list\">"
    case Open => "<ul>"
    case Close => "</ul>"
    case Item(href, number, line) =>
      var beforeHref := "<li>\n" + "                                    <a href=\"";
      var beforeNumber := "\" target=\"_blank\">\n" + "                                       <span class=\"number\">";
      var beforeLine := "</span>\n" + "                                       ";
      var after := "\n" + "                                    </a>\n" + "                                 </li>";
      assert |beforeHref| == 50 && |beforeNumber| == 79 && |beforeLine| == 47 && |after| == 80;
      beforeHref + href + beforeNumber + number + beforeLine + line + after
  }

  /** The container's text: the tokens' texts appended one after another, as the
      builder's `+=` does. Every token contributes some text. */
  function Markup(ts: seq<Token>): (r: string)
    ensures r == "" <==> ts == []
  {
    if ts == [] then "" else Markup(ts[..|ts| - 1]) + TokenMarkup(ts[|ts| - 1])
  }

  lemma MarkupSnoc(ts: seq<Token>, t: Token)
    ensures Markup(ts + [t]) == Markup(ts) + TokenMarkup(t)
  {
    assert (ts + [t])[..|ts|] == ts;
  }

  /** Appending text in two stretches gives the text of the whole token sequence. */
  lemma {:induction false} MarkupAppend(a: seq<Token>, b: seq<Token>)
    ensures Markup(a + b) == Markup(a) + Markup(b)
    decreases |b|
  {
    if b == [] {
      assert a + b == a;
    } else {
      var c, t := b[..|b| - 1], b[|b| - 1];
      assert Markup(a + b) == Markup(a + c) + TokenMarkup(t) by {
        assert a + b == (a + c) + [t];
        MarkupSnoc(a + c, t);
      }
      assert Markup(b) == Markup(c) + TokenMarkup(t) by {
        assert b == c + [t];
        MarkupSnoc(c, t);
      }
      MarkupAppend(a, c);
      Associative(Markup(a), Markup(c), TokenMarkup(t));
    }
  }

  lemma Associative<T>(x: seq<T>, y: seq<T>, z: seq<T>)
    ensures (x + y) + z == x + (y + z)
  {
  }

  /** No sections: the outer list opened and closed, with nothing inside. */
  lemma EmptyToc(pageUrl: string)
    ensures Toc(pageUrl, []) == [ListOpen, Close]
    ensures Markup(Toc(pageUrl, [])) == "<ul class=\"toc-list\"></ul>"
  {
    assert [ListOpen, Close][..1] == [ListOpen];
  }

  /** A first section at level 3 is preceded by two nested lists inside the outer one,
      three open lists in all, without any error. */
  lemma StartsDeep(pageUrl: string, a: Section)
    requires a.level == 3
    ensures Toc(pageUrl, [a]) == [ListOpen, Open, Open, ItemFor(pageUrl, a), Close]
  {
    assert [a][..0] == [];
    assert Repeat(Open, 2) == [Open, Open] by {
      assert Repeat(Open, 1) == [Open];
    }
    assert Steps(1, 3) == [Open, Open];
    assert Body(pageUrl, [a]) == [Open, Open, ItemFor(pageUrl, a)];
  }

  /** Levels 1, 3, 1: the second entry sits two lists below the first, and the third is
      back beside the first at the top. */
  lemma JumpAndReturn(pageUrl: string, a: Section, b: Section, c: Section)
    requires a.level == 1 && b.level == 3 && c.level == 1
    ensures Toc(pageUrl, [a, b, c]) ==
              [ListOpen, ItemFor(pageUrl, a), Open, Open, ItemFor(pageUrl, b), Close, Close,
               ItemFor(pageUrl, c), Close]
  {
    var ia, ib, ic := ItemFor(pageUrl, a), ItemFor(pageUrl, b), ItemFor(pageUrl, c);
    assert [a] == [] + [a];
    BodySnoc(pageUrl, [], a);
    assert Steps(1, 1) == [];
    assert Body(pageUrl, [a]) == [ia];
    assert [a, b] == [a] + [b];
    BodySnoc(pageUrl, [a], b);
    assert Steps(1, 3) == [Open, Open] by {
      assert Repeat(Open, 1) == [Open];
    }
    assert Body(pageUrl, [a, b]) == [ia, Open, Open, ib];
    assert [a, b, c] == [a, b] + [c];
    BodySnoc(pageUrl, [a, b], c);
    assert Steps(3, 1) == [Close, Close] by {
      assert Repeat(Close, 1) == [Close];
    }
    assert Body(pageUrl, [a, b, c]) == [ia, Open, Open, ib, Close, Close, ic];
  }

  // ---------------------------------------------------------------------------
  // Items

  /** The `<li>` entries of a token stream, in order. */
  function Items(ts: seq<Token>): seq<Token> {
    if ts == [] then []
    else (if ts[0].Item? then [ts[0]] else []) + Items(ts[1..])
  }

  lemma {:induction false} ItemsAppend(a: seq<Token>, b: seq<Token>)
    ensures Items(a + b) == Items(a) + Items(b)
    decreases |a|
  {
    if a == [] {
      assert a + b == b;
    } else {
      assert (a + b)[0] == a[0] && (a + b)[1..] == a[1..] + b;
      ItemsAppend(a[1..], b);
    }
  }

  lemma {:induction false} ItemsRepeat(t: Token, n: nat)
    requires !t.Item?
    ensures Items(Repeat(t, n)) == []
  {
    if n > 0 {
      ItemsRepeat(t, n - 1);
      ItemsAppend(Repeat(t, n - 1), [t]);
    }
  }

  lemma ItemsSteps(from: int, to: int)
    ensures Items(Steps(from, to)) == []
  {
    if from <= to {
      assert Steps(from, to) == Repeat(Open, to - from);
      ItemsRepeat(Open, to - from);
    } else {
      assert Steps(from, to) == Repeat(Close, from - to);
      ItemsRepeat(Close, from - to);
    }
  }

  /** The entries the sections call for, one each, in order. */
  function Entries(pageUrl: string, sections: seq<Section>): (r: seq<Token>)
    ensures |r| == |sections|
    ensures forall i :: 0 <= i < |sections| ==> r[i] == ItemFor(pageUrl, sections[i])
  {
    seq(|sections|, i requires 0 <= i < |sections| => ItemFor(pageUrl, sections[i]))
  }

  lemma {:induction false} ItemsBody(pageUrl: string, sections: seq<Section>)
    ensures Items(Body(pageUrl, sections)) == Entries(pageUrl, sections)
    decreases |sections|
  {
    if sections != [] {
      var n := |sections| - 1;
      var init, last := sections[..n], sections[n];
      assert sections == init + [last];
      var steps := Steps(Cursor(init), last.level);
      var item := ItemFor(pageUrl, last);
      var front := Body(pageUrl, init);
      BodySnoc(pageUrl, init, last);
      ItemsBody(pageUrl, init);
      ItemsSteps(Cursor(init), last.level);
      ItemsAppend(front, steps);
      ItemsAppend(front + steps, [item]);
      assert Items([item]) == [item] by {
        assert [item][..0] == [];
      }
      assert Entries(pageUrl, sections) == Entries(pageUrl, init) + [item];
    }
  }

  /** Exactly one entry per section, in input order, each linking to
      `pageUrl#anchor` and carrying that section's number and heading. */
  lemma ItemsInOrder(pageUrl: string, sections: seq<Section>)
    ensures |Items(Toc(pageUrl, sections))| == |sections|
    ensures forall i :: 0 <= i < |sections| ==>
              Items(Toc(pageUrl, sections))[i] == Item(pageUrl + "#" + sections[i].anchor,
                                                       sections[i].number, sections[i].line)
  {
    var body := Body(pageUrl, sections);
    ItemsBody(pageUrl, sections);
    ItemsAppend([ListOpen], body);
    ItemsAppend([ListOpen] + body, [Close]);
    assert Items([ListOpen]) == [] by {
      assert [ListOpen][..0] == [];
    }
    assert Items([Close]) == [] by {
      assert [Close][..0] == [];
    }
    assert Items(Toc(pageUrl, sections)) == Entries(pageUrl, sections);
  }

  // ---------------------------------------------------------------------------
  // Tag counts

  /** Opening tags (the outer one included) minus closing tags. */
  function Net(ts: seq<Token>): int {
    if ts == [] then 0
    else (if ts[0].ListOpen? || ts[0].Open? then 1 else if ts[0].Close? then -1 else 0) + Net(ts[1..])
  }

  lemma {:induction false} NetAppend(a: seq<Token>, b: seq<Token>)
    ensures Net(a + b) == Net(a) + Net(b)
    decreases |a|
  {
    if a == [] {
      assert a + b == b;
    } else {
      assert (a + b)[0] == a[0] && (a + b)[1..] == a[1..] + b;
      NetAppend(a[1..], b);
    }
  }

  lemma {:induction false} NetRepeat(t: Token, n: nat)
    ensures Net(Repeat(t, n)) == n * (if t.ListOpen? || t.Open? then 1 else if t.Close? then -1 else 0)
  {
    if n > 0 {
      NetRepeat(t, n - 1);
      NetAppend(Repeat(t, n - 1), [t]);
    }
  }

  /** The tags between two entries move the depth by exactly the level difference. */
  lemma NetSteps(from: int, to: int)
    ensures Net(Steps(from, to)) == to - from
  {
    if from <= to {
      assert Steps(from, to) == Repeat(Open, to - from);
      NetRepeat(Open, to - from);
    } else {
      assert Steps(from, to) == Repeat(Close, from - to);
      NetRepeat(Close, from - to);
    }
  }

  lemma {:induction false} NetBody(pageUrl: string, sections: seq<Section>)
    ensures Net(Body(pageUrl, sections)) == Cursor(sections) - 1
    decreases |sections|
  {
    if sections != [] {
      var n := |sections| - 1;
      var init := sections[..n];
      var steps := Steps(Cursor(init), sections[n].level);
      NetBody(pageUrl, init);
      NetSteps(Cursor(init), sections[n].level);
      NetAppend(Body(pageUrl, init), steps);
      NetAppend(Body(pageUrl, init) + steps, [ItemFor(pageUrl, sections[n])]);
      assert Net([ItemFor(pageUrl, sections[n])]) == 0;
    }
  }

  /** Whatever the levels, opening tags outnumber closing tags by the last level minus one
      (zero for no sections): only one `</ul>` is appended at the end. */
  lemma TagCount(pageUrl: string, sections: seq<Section>)
    ensures Net(Toc(pageUrl, sections)) == Cursor(sections) - 1
    ensures sections != [] ==> Net(Toc(pageUrl, sections)) == sections[|sections| - 1].level - 1
  {
    NetBody(pageUrl, sections);
    NetAppend([ListOpen], Body(pageUrl, sections));
    NetAppend([ListOpen] + Body(pageUrl, sections), [Close]);
    assert Net([ListOpen]) == 1 && Net([Close]) == -1;
  }

  // ---------------------------------------------------------------------------
  // Nesting depth

  /** Reading the tags left to right from depth `d`: the final depth, or None as soon as
      a closing tag has no open list to close. */
  function Walk(d: nat, ts: seq<Token>): Option<nat>
    decreases |ts|
  {
    if ts == [] then Some(d)
    else match ts[0]
      case ListOpen => Walk(d + 1, ts[1..])
      case Open => Walk(d + 1, ts[1..])
      case Item(_, _, _) => Walk(d, ts[1..])
      case Close => if d == 0 then None else Walk(d - 1, ts[1..])
  }

  /** Every closing tag closes an open list and every list is closed. */
  predicate Balanced(ts: seq<Token>) {
    Walk(0, ts) == Some(0)
  }

  lemma {:induction false} WalkAppend(d: nat, a: seq<Token>, b: seq<Token>)
    ensures Walk(d, a + b) == match Walk(d, a) case None => None case Some(e) => Walk(e, b)
    decreases |a|
  {
    if a == [] {
      assert a + b == b;
    } else {
      assert (a + b)[0] == a[0] && (a + b)[1..] == a[1..] + b;
      match a[0]
      case ListOpen => WalkAppend(d + 1, a[1..], b);
      case Open => WalkAppend(d + 1, a[1..], b);
      case Item(_, _, _) => WalkAppend(d, a[1..], b);
      case Close => if d > 0 { WalkAppend(d - 1, a[1..], b); }
    }
  }

  lemma {:induction false} WalkOpens(d: nat, n: nat)
    ensures Walk(d, Repeat(Open, n)) == Some(d + n)
  {
    if n > 0 {
      WalkOpens(d, n - 1);
      WalkAppend(d, Repeat(Open, n - 1), [Open]);
    }
  }

  lemma {:induction false} WalkCloses(d: nat, n: nat)
    requires n <= d
    ensures Walk(d, Repeat(Close, n)) == Some(d - n)
  {
    if n > 0 {
      WalkCloses(d, n - 1);
      WalkAppend(d, Repeat(Close, n - 1), [Close]);
    }
  }

  lemma WalkSteps(from: nat, to: nat)
    ensures Walk(from, Steps(from, to)) == Some(to)
  {
    if from <= to {
      WalkOpens(from, to - from);
    } else {
      WalkCloses(from, from - to);
    }
  }

  predicate LevelsPositive(sections: seq<Section>) {
    forall i :: 0 <= i < |sections| ==> sections[i].level >= 1
  }

  /** With levels of at least 1, the body never closes the outer list and ends at the
      depth of the last section's level. */
  lemma {:induction false} WalkBody(pageUrl: string, sections: seq<Section>)
    requires LevelsPositive(sections)
    ensures Cursor(sections) >= 1
    ensures Walk(1, Body(pageUrl, sections)) == Some(Cursor(sections) as nat)
    decreases |sections|
  {
    if sections != [] {
      var n := |sections| - 1;
      var init := sections[..n];
      var level := sections[n].level;
      var steps := Steps(Cursor(init), level);
      assert LevelsPositive(init);
      WalkBody(pageUrl, init);
      WalkAppend(1, Body(pageUrl, init), steps + [ItemFor(pageUrl, sections[n])]);
      WalkAppend(Cursor(init), steps, [ItemFor(pageUrl, sections[n])]);
      WalkSteps(Cursor(init), level);
      assert Body(pageUrl, sections) == Body(pageUrl, init) + (steps + [ItemFor(pageUrl, sections[n])]);
    }
  }

  /** With levels of at least 1 the markup is balanced exactly when there are no sections
      or the last section is at level 1: the single trailing `</ul>` leaves every deeper
      list open. */
  lemma BalancedIff(pageUrl: string, sections: seq<Section>)
    requires LevelsPositive(sections)
    ensures Balanced(Toc(pageUrl, sections)) <==> sections == [] || sections[|sections| - 1].level == 1
  {
    var body := Body(pageUrl, sections);
    WalkBody(pageUrl, sections);
    assert Toc(pageUrl, sections) == [ListOpen] + (body + [Close]);
    WalkAppend(0, [ListOpen], body + [Close]);
    WalkAppend(1, body, [Close]);
  }

  lemma PrefixOfAppend<T>(a: seq<T>, b: seq<T>)
    ensures a <= a + b
  {
    assert (a + b)[..|a|] == a;
  }

  lemma PrefixInside<T>(p: seq<T>, q: seq<T>, c: T, d: T)
    requires p <= q
    ensures [c] + p <= [c] + q + [d]
  {
    assert q == p + q[|p|..];
    assert [c] + q + [d] == ([c] + p) + (q[|p|..] + [d]);
    PrefixOfAppend([c] + p, q[|p|..] + [d]);
  }

  lemma BodyGrows(pageUrl: string, sections: seq<Section>, s: Section)
    ensures Body(pageUrl, sections) <= Body(pageUrl, sections + [s])
  {
    BodySnoc(pageUrl, sections, s);
    var tail := Steps(Cursor(sections), s.level) + [ItemFor(pageUrl, s)];
    assert Body(pageUrl, sections + [s]) == Body(pageUrl, sections) + tail;
    PrefixOfAppend(Body(pageUrl, sections), tail);
  }

  lemma {:induction false} BodyPrefix(pageUrl: string, sections: seq<Section>, j: nat)
    requires j <= |sections|
    ensures Body(pageUrl, sections[..j]) <= Body(pageUrl, sections)
    decreases |sections| - j
  {
    if j < |sections| {
      var n := |sections| - 1;
      var init := sections[..n];
      BodyPrefix(pageUrl, init, j);
      assert init[..j] == sections[..j];
      assert sections == init + [sections[n]];
      BodyGrows(pageUrl, init, sections[n]);
    } else {
      assert sections[..j] == sections;
    }
  }

  /** The outer list followed by the body so far is where the whole stream starts. */
  lemma TocPrefix(pageUrl: string, sections: seq<Section>, j: nat)
    requires j <= |sections|
    ensures [ListOpen] + Body(pageUrl, sections[..j]) <= Toc(pageUrl, sections)
  {
    BodyPrefix(pageUrl, sections, j);
    PrefixInside(Body(pageUrl, sections[..j]), Body(pageUrl, sections), ListOpen, Close);
  }

  /** With levels of at least 1, each section's entry is nested exactly at its level:
      the markup from the start up to and including that entry is a prefix of the whole
      and leaves `level` lists open. */
  lemma ItemDepth(pageUrl: string, sections: seq<Section>, i: nat)
    requires LevelsPositive(sections)
    requires i < |sections|
    ensures var upTo := [ListOpen] + Body(pageUrl, sections[..i + 1]);
            && upTo <= Toc(pageUrl, sections)
            && upTo[|upTo| - 1] == ItemFor(pageUrl, sections[i])
            && Walk(0, upTo) == Some(sections[i].level as nat)
  {
    var prefix := sections[..i + 1];
    var upTo := [ListOpen] + Body(pageUrl, prefix);
    NextPrefix(pageUrl, sections, i);
    assert upTo[|upTo| - 1] == ItemFor(pageUrl, sections[i]);
    assert LevelsPositive(prefix) by {
      forall k | 0 <= k < |prefix| ensures prefix[k].level >= 1 {
        assert prefix[k] == sections[k];
      }
    }
    TocPrefix(pageUrl, sections, i + 1);
    WalkBody(pageUrl, prefix);
    WalkAppend(0, [ListOpen], Body(pageUrl, prefix));
  }
}
