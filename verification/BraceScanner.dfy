/** The string-aware scanner that finds JSON objects in a model's answer. */
module BraceScanner {
  // ---------------------------------------------------------------- the scanner

  /** A block is the half-open interval of text it covers. */
  datatype Span = Span(from: nat, to: nat)

  datatype Scan = Scan(depth: nat, start: nat, inString: bool, escaped: bool, blocks: seq<Span>)

  const FRESH := Scan(0, 0, false, false, [])

  /** One character at position `i`. */
  function Step(s: Scan, ch: char, i: nat): Scan {
    if s.inString then
      if s.escaped then s.(escaped := false)
      else if ch == '\\' then s.(escaped := true)
      else if ch == '"' then s.(inString := false)
      else s
    else if ch == '"' then s.(inString := true)
    else if ch == '{' then s.(depth := s.depth + 1, start := if s.depth == 0 then i else s.start)
    else if ch == '}' && s.depth == 1 then s.(depth := 0, blocks := s.blocks + [Span(s.start, i + 1)])
    else if ch == '}' && s.depth > 1 then s.(depth := s.depth - 1)
    else s
  }

  /** Scan a text that begins at position `at`. */
  function ScanAll(s: Scan, text: string, at: nat): Scan
    decreases |text|
  {
    if text == "" then s else ScanAll(Step(s, text[0], at), text[1..], at + 1)
  }

  lemma {:induction false} ScanConcat(s: Scan, a: string, b: string, at: nat)
    ensures ScanAll(s, a + b, at) == ScanAll(ScanAll(s, a, at), b, at + |a|)
    decreases |a|
  {
    if a == "" {
      assert a + b == b;
    } else {
      assert (a + b)[1..] == a[1..] + b;
      ScanConcat(Step(s, a[0], at), a[1..], b, at + 1);
    }
  }

  function Slices(text: string, spans: seq<Span>): seq<string>
    requires forall i :: 0 <= i < |spans| ==> spans[i].from <= spans[i].to <= |text|
  {
    seq(|spans|, i requires 0 <= i < |spans| => text[spans[i].from..spans[i].to])
  }

  /** Blocks that begin and end with a brace, disjoint, in order, and within a limit. */
  ghost predicate InOrder(blocks: seq<Span>, text: string, limit: nat) {
    && limit <= |text|
    && (forall i :: 0 <= i < |blocks| ==>
          && blocks[i].from + 1 < blocks[i].to <= limit
          && text[blocks[i].from] == '{' && text[blocks[i].to - 1] == '}')
    && (forall i, j :: 0 <= i < j < |blocks| ==> blocks[i].to <= blocks[j].from)
  }

  lemma AppendBlock(blocks: seq<Span>, text: string, from: nat, to: nat)
    requires InOrder(blocks, text, from) && from + 1 < to <= |text| && text[from] == '{' && text[to - 1] == '}'
    ensures InOrder(blocks + [Span(from, to)], text, to)
  {
  }

  lemma Widen(blocks: seq<Span>, text: string, limit: nat, limit': nat)
    requires InOrder(blocks, text, limit) && limit <= limit' <= |text|
    ensures InOrder(blocks, text, limit')
  {
  }

  /** The blocks found so far, and the object being read, if any, after them. */
  ghost predicate Sound(s: Scan, text: string, at: nat) {
    && at <= |text| && (s.escaped ==> s.inString)
    && (s.depth > 0 ==> s.start < at && text[s.start] == '{')
    && InOrder(s.blocks, text, if s.depth > 0 then s.start else at)
  }

  lemma StepKeepsSound(s: Scan, text: string, at: nat)
    requires at < |text| && Sound(s, text, at)
    ensures Sound(Step(s, text[at], at), text, at + 1)
  {
    hide InOrder;
    if s.depth == 0 {
      Widen(s.blocks, text, at, at + 1);
    } else if !s.inString && text[at] == '}' && s.depth == 1 {
      AppendBlock(s.blocks, text, s.start, at + 1);
    }
  }

  lemma {:induction false} ScanKeepsSound(s: Scan, text: string, at: nat)
    requires Sound(s, text, at)
    ensures Sound(ScanAll(s, text[at..], at), text, |text|)
    decreases |text| - at
  {
    hide Step, InOrder;
    if at < |text| {
      StepKeepsSound(s, text, at);
      ScanOne(s, text, at);
      ScanKeepsSound(Step(s, text[at], at), text, at + 1);
    } else {
      ScanEnd(s, text);
    }
  }

  /** The blocks of a text are disjoint and in order, and each runs from an opening brace to a
      closing one. */
  lemma BlocksAreInOrder(text: string)
    ensures InOrder(ScanAll(FRESH, text, 0).blocks, text, |text|)
  {
    hide ScanAll;
    ScanKeepsSound(FRESH, text, 0);
    assert text[0..] == text;
    var s := ScanAll(FRESH, text, 0);
    if s.depth > 0 {
      Widen(s.blocks, text, s.start, |text|);
    }
  }

  /** The texts of the blocks, as one scan from the left finds them. */
  function Blocks(text: string): seq<string> {
    BlocksAreInOrder(text);
    Slices(text, ScanAll(FRESH, text, 0).blocks)
  }

  /** `_balanced_json_blocks`. */
  method BalancedBlocks(text: string) returns (blocks: seq<string>)
    ensures blocks == Blocks(text)
  {
    hide ScanAll, Step;
    var depth, start := 0, 0;
    var inString, escaped := false, false;
    blocks := [];
    ghost var spans: seq<Span> := [];
    assert text[0..] == text;
    var i := 0;
    while i < |text|
      invariant i <= |text| && (depth > 0 ==> start < i)
      invariant ScanAll(Scan(depth, start, inString, escaped, spans), text[i..], i) == ScanAll(FRESH, text, 0)
      invariant (forall k :: 0 <= k < |spans| ==> spans[k].from <= spans[k].to <= |text|) && blocks == Slices(text, spans)
    {
      var ch := text[i];
      ghost var s := Scan(depth, start, inString, escaped, spans);
      ScanOne(s, text, i);
      if inString {
        if escaped {
          escaped := false;
        } else if ch == '\\' {
          escaped := true;
        } else if ch == '"' {
          inString := false;
        }
      } else if ch == '"' {
        inString := true;
      } else if ch == '{' {
        if depth == 0 {
          start := i;
        }
        depth := depth + 1;
      } else if ch == '}' {
        if depth > 0 {
          depth := depth - 1;
          if depth == 0 {
            blocks := blocks + [text[start..i + 1]];
            spans := spans + [Span(start, i + 1)];
          }
        }
      }
      assert Scan(depth, start, inString, escaped, spans) == Step(s, ch, i) by {
        StepIs(s, ch, i);
      }
      i := i + 1;
    }
    ScanEnd(Scan(depth, start, inString, escaped, spans), text);
  }

  lemma ScanOne(s: Scan, text: string, i: nat)
    requires i < |text|
    ensures ScanAll(s, text[i..], i) == ScanAll(Step(s, text[i], i), text[i + 1..], i + 1)
  {
    assert text[i..][1..] == text[i + 1..];
  }

  lemma ScanEnd(s: Scan, text: string)
    ensures ScanAll(s, text[|text|..], |text|) == s
  {
  }

  /** The transition written out by what the character is. */
  lemma StepIs(s: Scan, ch: char, i: nat)
    ensures Step(s, ch, i) ==
              if s.inString then
                s.(escaped := !s.escaped && ch == '\\', inString := s.escaped || ch != '"')
              else if ch == '"' then s.(inString := true)
              else if ch == '{' then s.(depth := s.depth + 1, start := if s.depth == 0 then i else s.start)
              else if ch == '}' && s.depth > 0 then
                s.(depth := s.depth - 1, blocks := if s.depth == 1 then s.blocks + [Span(s.start, i + 1)] else s.blocks)
              else s
  {
  }

  // ---------------------------------------------------------------- JSON texts

  /** A character of a JSON string literal: a plain one, or a backslash and the character after it
      (the four digits of a unicode escape are then plain characters). */
  datatype StringChar = PlainChar(c: char) | Escape(c: char)

  /** Concrete JSON syntax, white space included (sections 2 to 7 of RFC 8259): every text of the
      grammar is the text of such a tree. */
  datatype Json =
    | Literal(text: string)                               // number, true, false or null
    | Text(chars: seq<StringChar>)
    | Arr(open: string, items: seq<Item>)                 // white space after the bracket
    | Obj(open: string, members: seq<Member>)

  /** A value with the white space and the comma around it. */
  datatype Item = Item(value: Json, after: string)
  datatype Member = Member(name: seq<StringChar>, colon: string, value: Json, after: string)

  function CharText(c: StringChar): string {
    match c
    case PlainChar(x) => [x]
    case Escape(x) => ['\\', x]
  }

  function CharsText(cs: seq<StringChar>): string {
    if cs == [] then "" else CharText(cs[0]) + CharsText(cs[1..])
  }

  function Quoted(cs: seq<StringChar>): string {
    "\"" + CharsText(cs) + "\""
  }

  function JsonText(j: Json): string
    decreases j, 0
  {
    match j
    case Literal(t) => t
    case Text(cs) => Quoted(cs)
    case Arr(open, items) => "[" + open + ItemsText(items) + "]"
    case Obj(open, members) => "{" + open + MembersText(members) + "}"
  }

  function ItemsText(items: seq<Item>): string
    decreases items, 1
  {
    if items == [] then "" else JsonText(items[0].value) + items[0].after + ItemsText(items[1..])
  }

  function MembersText(ms: seq<Member>): string
    decreases ms, 1
  {
    if ms == [] then ""
    else Quoted(ms[0].name) + ms[0].colon + JsonText(ms[0].value) + ms[0].after + MembersText(ms[1..])
  }

  /** Text in which the scanner can see neither a quote nor a brace. */
  predicate Inert(t: string) {
    forall i :: 0 <= i < |t| ==> t[i] != '"' && t[i] != '{' && t[i] != '}'
  }

  /** What the grammar says about the pieces, as far as the scanner can tell: an unescaped quote or
      backslash never stands in a string, and nothing between tokens is a quote or a brace. */
  predicate StringOk(cs: seq<StringChar>) {
    forall i :: 0 <= i < |cs| && cs[i].PlainChar? ==> cs[i].c != '"' && cs[i].c != '\\'
  }

  predicate JsonOk(j: Json)
    decreases j, 0
  {
    match j
    case Literal(t) => Inert(t)
    case Text(cs) => StringOk(cs)
    case Arr(open, items) => Inert(open) && ItemsOk(items)
    case Obj(open, members) => Inert(open) && MembersOk(members)
  }

  predicate ItemsOk(items: seq<Item>)
    decreases items, 1
  {
    items == [] || (JsonOk(items[0].value) && Inert(items[0].after) && ItemsOk(items[1..]))
  }

  predicate MembersOk(ms: seq<Member>)
    decreases ms, 1
  {
    ms == [] || (StringOk(ms[0].name) && Inert(ms[0].colon) && JsonOk(ms[0].value) && Inert(ms[0].after) && MembersOk(ms[1..]))
  }

  /** Inside an object and outside strings. */
  predicate Inside(s: Scan) {
    s.depth >= 1 && !s.inString && !s.escaped
  }

  lemma {:induction false} InertIsInvisible(s: Scan, t: string, at: nat)
    requires Inert(t) && !s.inString
    ensures ScanAll(s, t, at) == s
    decreases |t|
  {
    if t != "" {
      InertIsInvisible(Step(s, t[0], at), t[1..], at + 1);
    }
  }

  lemma {:induction false} CharsAreSkipped(s: Scan, cs: seq<StringChar>, at: nat)
    requires s.inString && !s.escaped && StringOk(cs)
    ensures ScanAll(s, CharsText(cs), at) == s
    decreases |cs|
  {
    if cs != [] {
      var t := CharText(cs[0]);
      ScanConcat(s, t, CharsText(cs[1..]), at);
      if cs[0].Escape? {
        assert t[1..] == [cs[0].c] && t[1..][1..] == "";
        assert ScanAll(Step(s, '\\', at), t[1..], at + 1) == Step(Step(s, '\\', at), cs[0].c, at + 1);
      } else {
        assert t[1..] == "";
      }
      CharsAreSkipped(s, cs[1..], at + |t|);
    }
  }

  lemma OneChar(s: Scan, c: char, at: nat)
    ensures ScanAll(s, [c], at) == Step(s, c, at)
  {
    assert [c][1..] == "";
  }

  /** A string literal leaves the scanner as it was, whatever braces and escapes it holds. */
  lemma QuotedIsInvisible(s: Scan, cs: seq<StringChar>, at: nat)
    requires !s.inString && !s.escaped && StringOk(cs)
    ensures ScanAll(s, Quoted(cs), at) == s
  {
    hide Step, CharsText;
    var body := CharsText(cs);
    assert Quoted(cs) == ['"'] + body + ['"'];
    ScanConcat(s, ['"'] + body, ['"'], at);
    ScanConcat(s, ['"'], body, at);
    OneChar(s, '"', at);
    var s1 := s.(inString := true);
    assert Step(s, '"', at) == s1 by {
      OpenQuote(s, at);
    }
    CharsAreSkipped(s1, cs, at + 1);
    OneChar(s1, '"', at + 1 + |body|);
    CloseQuote(s1, at + 1 + |body|);
  }

  lemma OpenQuote(s: Scan, at: nat)
    requires !s.inString
    ensures Step(s, '"', at) == s.(inString := true)
  {
  }

  lemma CloseQuote(s: Scan, at: nat)
    requires s.inString && !s.escaped
    ensures Step(s, '"', at) == s.(inString := false)
  {
  }

  /** Any value inside an object is scanned back to where the scanner was, blocks included. */
  lemma {:induction false} ValueIsInvisible(s: Scan, j: Json, at: nat)
    requires Inside(s) && JsonOk(j)
    ensures ScanAll(s, JsonText(j), at) == s
    decreases j, 0
  {
    hide Step, Quoted;
    match j
    case Literal(t) => InertIsInvisible(s, t, at);
    case Text(cs) => QuotedIsInvisible(s, cs, at);
    case Arr(open, items) =>
      var head := "[" + open;
      assert Inert(head) && Inert("]");
      ScanConcat(s, head + ItemsText(items), "]", at);
      ScanConcat(s, head, ItemsText(items), at);
      InertIsInvisible(s, head, at);
      ItemsAreInvisible(s, items, at + |head|);
      InertIsInvisible(s, "]", at + |head + ItemsText(items)|);
    case Obj(open, members) =>
      ObjectReturns(s, open, members, at);
      NestedBraces(s, at, at + |JsonText(j)| - 1);
  }

  /** An object is scanned as its two braces would be on their own. */
  lemma ObjectReturns(s: Scan, open: string, members: seq<Member>, at: nat)
    requires !s.inString && !s.escaped && Inert(open) && MembersOk(members)
    ensures var t := JsonText(Obj(open, members));
            ScanAll(s, t, at) == Step(Step(s, '{', at), '}', at + |t| - 1)
    decreases members, 2
  {
    hide Step;
    var inner := open + MembersText(members);
    var t := JsonText(Obj(open, members));
    assert t == ['{'] + inner + ['}'];
    var s1 := Step(s, '{', at);
    Opened(s, at);
    ScanConcat(s, ['{'] + inner, ['}'], at);
    ScanConcat(s, ['{'], inner, at);
    OneChar(s, '{', at);
    ScanConcat(s1, open, MembersText(members), at + 1);
    InertIsInvisible(s1, open, at + 1);
    MembersAreInvisible(s1, members, at + 1 + |open|);
    OneChar(s1, '}', at + |t| - 1);
  }

  lemma Opened(s: Scan, at: nat)
    requires !s.inString && !s.escaped
    ensures Inside(Step(s, '{', at))
  {
  }

  lemma NestedBraces(s: Scan, at: nat, to: nat)
    requires Inside(s)
    ensures Step(Step(s, '{', at), '}', to) == s
  {
  }

  lemma {:induction false} ItemsAreInvisible(s: Scan, items: seq<Item>, at: nat)
    requires Inside(s) && ItemsOk(items)
    ensures ScanAll(s, ItemsText(items), at) == s
    decreases items, 1
  {
    hide Step;
    if items != [] {
      var v, a, rest := JsonText(items[0].value), items[0].after, ItemsText(items[1..]);
      ScanConcat(s, v + a, rest, at);
      ScanConcat(s, v, a, at);
      ValueIsInvisible(s, items[0].value, at);
      InertIsInvisible(s, a, at + |v|);
      ItemsAreInvisible(s, items[1..], at + |v + a|);
    }
  }

  lemma {:induction false} MembersAreInvisible(s: Scan, ms: seq<Member>, at: nat)
    requires Inside(s) && MembersOk(ms)
    ensures ScanAll(s, MembersText(ms), at) == s
    decreases ms, 1
  {
    hide Step, Quoted;
    if ms != [] {
      var m := ms[0];
      var n, v, rest := Quoted(m.name), JsonText(m.value), MembersText(ms[1..]);
      assert MembersText(ms) == n + m.colon + v + m.after + rest;
      ScanConcat(s, n + m.colon + v + m.after, rest, at);
      ScanConcat(s, n + m.colon + v, m.after, at);
      ScanConcat(s, n + m.colon, v, at);
      ScanConcat(s, n, m.colon, at);
      QuotedIsInvisible(s, m.name, at);
      InertIsInvisible(s, m.colon, at + |n|);
      ValueIsInvisible(s, m.value, at + |n + m.colon|);
      InertIsInvisible(s, m.after, at + |n + m.colon + v|);
      MembersAreInvisible(s, ms[1..], at + |n + m.colon + v + m.after|);
    }
  }

  /** A piece of text outside objects: characters other than quotes and opening braces, or a string literal. */
  datatype Piece = Plain(text: string) | Literal(cs: seq<StringChar>)

  function PiecesText(ps: seq<Piece>): string {
    if ps == [] then "" else (if ps[0].Plain? then ps[0].text else Quoted(ps[0].cs)) + PiecesText(ps[1..])
  }

  predicate PieceOk(p: Piece) {
    match p
    case Plain(t) => forall i :: 0 <= i < |t| ==> t[i] != '"' && t[i] != '{'
    case Literal(cs) => StringOk(cs)
  }

  ghost predicate ArePieces(ps: seq<Piece>, t: string) {
    PiecesText(ps) == t && forall i :: 0 <= i < |ps| ==> PieceOk(ps[i])
  }

  /** Text outside objects: every quote belongs to a string literal, and no brace opens outside them. Stray
      closing braces are ignored. */
  ghost predicate Preamble(t: string) {
    exists ps :: ArePieces(ps, t)
  }

  lemma PlainIsPreamble(t: string)
    requires forall i :: 0 <= i < |t| ==> t[i] != '"' && t[i] != '{'
    ensures Preamble(t)
  {
    assert [Plain(t)][1..] == [] && PiecesText([Plain(t)]) == t + PiecesText([]);
    assert ArePieces([Plain(t)], t);
  }

  lemma {:induction false} PlainIsInvisible(s: Scan, t: string, at: nat)
    requires PieceOk(Plain(t)) && s.depth == 0 && !s.inString
    ensures ScanAll(s, t, at) == s
    decreases |t|
  {
    if t != "" {
      PlainIsInvisible(Step(s, t[0], at), t[1..], at + 1);
    }
  }

  lemma {:induction false} PiecesAreInvisible(s: Scan, ps: seq<Piece>, at: nat)
    requires (forall i :: 0 <= i < |ps| ==> PieceOk(ps[i])) && s.depth == 0 && !s.inString && !s.escaped
    ensures ScanAll(s, PiecesText(ps), at) == s
    decreases |ps|
  {
    hide Step, Quoted;
    if ps != [] {
      var first := if ps[0].Plain? then ps[0].text else Quoted(ps[0].cs);
      ScanConcat(s, first, PiecesText(ps[1..]), at);
      if ps[0].Plain? {
        PlainIsInvisible(s, ps[0].text, at);
      } else {
        QuotedIsInvisible(s, ps[0].cs, at);
      }
      PiecesAreInvisible(s, ps[1..], at + |first|);
    }
  }

  lemma PreambleIsInvisible(s: Scan, t: string, at: nat)
    requires Preamble(t) && s.depth == 0 && !s.inString && !s.escaped
    ensures ScanAll(s, t, at) == s
  {
    hide ScanAll;
    var ps :| ArePieces(ps, t);
    PiecesAreInvisible(s, ps, at);
  }

  lemma {:induction false} BlocksOnlyGrow(s: Scan, text: string, at: nat)
    ensures s.blocks <= ScanAll(s, text, at).blocks
    decreases |text|
  {
    if text != "" {
      BlocksOnlyGrow(Step(s, text[0], at), text[1..], at + 1);
    }
  }

  /** Every JSON object that follows such a preamble is returned verbatim as the first block,
      whatever braces and escapes its strings hold and whatever comes after it. */
  lemma ObjectIsReturnedVerbatim(before: string, open: string, members: seq<Member>, after: string)
    requires Preamble(before) && Inert(open) && MembersOk(members)
    ensures var obj := JsonText(Obj(open, members));
            var text := before + obj + after;
            var spans := ScanAll(FRESH, text, 0).blocks;
            && |spans| >= 1 && spans[0] == Span(|before|, |before| + |obj|)
            && |Blocks(text)| == |spans| && Blocks(text)[0] == obj
  {
    hide JsonText, MembersOk;
    var obj := JsonText(Obj(open, members));
    var n := |before|;
    ObjectStarts(open, members);
    ScanConcat(FRESH, before + obj, after, 0);
    ScanConcat(FRESH, before, obj, 0);
    PreambleIsInvisible(FRESH, before, 0);
    ObjectReturns(FRESH, open, members, n);
    var closed := Step(Step(FRESH, '{', n), '}', n + |obj| - 1);
    assert closed.blocks == [Span(n, n + |obj|)];
    BlocksOnlyGrow(closed, after, n + |obj|);
  }

  lemma ObjectStarts(open: string, members: seq<Member>)
    ensures |JsonText(Obj(open, members))| >= 2
  {
  }

  // ---------------------------------------------------------------- several objects

  /** An object after text the scanner does not see. */
  datatype Found = Found(before: string, open: string, members: seq<Member>)
  {
    function Object(): string {
      JsonText(Obj(open, members))
    }

    ghost predicate Ok() {
      Preamble(before) && Inert(open) && MembersOk(members)
    }
  }

  function TextOf(found: seq<Found>): string {
    if found == [] then "" else found[0].before + found[0].Object() + TextOf(found[1..])
  }

  ghost predicate AllOk(found: seq<Found>) {
    forall i :: 0 <= i < |found| ==> found[i].Ok()
  }

  /** The blocks of objects that follow one another, in a text that begins at a position. */
  function SpansOf(found: seq<Found>, at: nat): seq<Span> {
    if found == [] then []
    else
      var from := at + |found[0].before|;
      [Span(from, from + |found[0].Object()|)] + SpansOf(found[1..], from + |found[0].Object()|)
  }

  /** From outside any object the scanner finds each of them and is outside again. */
  lemma {:induction false} ObjectsAreFound(s: Scan, found: seq<Found>, at: nat)
    requires Outside(s) && AllOk(found)
    ensures var s' := ScanAll(s, TextOf(found), at);
            Outside(s') && s'.blocks == s.blocks + SpansOf(found, at)
    decreases |found|
  {
    hide Step, Found.Object, Found.Ok, ScanAll, Outside, TextOf, SpansOf;
    Unfold(found, at);
    if found == [] {
      NothingScanned(s, at);
    } else {
      var f, rest := found[0], TextOf(found[1..]);
      var head := f.before + f.Object();
      ScanConcat(s, head, rest, at);
      OneObject(s, f, at);
      ObjectsAreFound(ScanAll(s, head, at), found[1..], at + |head|);
      Regroup(s.blocks, Span(at + |f.before|, at + |head|), SpansOf(found[1..], at + |head|));
    }
  }

  lemma Regroup(a: seq<Span>, b: Span, c: seq<Span>)
    ensures a + [b] + c == a + ([b] + c)
  {
  }

  lemma Unfold(found: seq<Found>, at: nat)
    ensures found == [] ==> TextOf(found) == "" && SpansOf(found, at) == []
    ensures found != [] ==>
              var head := found[0].before + found[0].Object();
              && TextOf(found) == head + TextOf(found[1..])
              && SpansOf(found, at) == [Span(at + |found[0].before|, at + |head|)] + SpansOf(found[1..], at + |head|)
  {
    hide Found.Object;
  }

  /** Outside any object and any string. */
  predicate Outside(s: Scan) {
    s.depth == 0 && !s.inString && !s.escaped
  }

  lemma NothingScanned(s: Scan, at: nat)
    ensures ScanAll(s, "", at) == s
  {
  }

  lemma OneObject(s: Scan, f: Found, at: nat)
    requires Outside(s) && f.Ok()
    ensures var s' := ScanAll(s, f.before + f.Object(), at);
            Outside(s') && s'.blocks == s.blocks + [Span(at + |f.before|, at + |f.before + f.Object()|)]
  {
    hide JsonText, MembersOk;
    ScanConcat(s, f.before, f.Object(), at);
    PreambleIsInvisible(s, f.before, at);
    ObjectStarts(f.open, f.members);
    ObjectReturns(s, f.open, f.members, at + |f.before|);
  }

  /** Every one of several objects is returned verbatim and in order, whatever harmless text stands between
      them and whatever follows the last; when that is harmless too, nothing else is returned. */
  lemma ObjectsAreReturned(found: seq<Found>, after: string, i: nat)
    requires AllOk(found) && i < |found|
    ensures var text := TextOf(found) + after;
            && |Blocks(text)| >= |found| && Blocks(text)[i] == found[i].Object()
            && (Preamble(after) ==> |Blocks(text)| == |found|)
  {
    hide Step, Found.Object, Found.Ok, ScanAll, TextOf, SpansOf;
    var objects := TextOf(found);
    var n := |objects|;
    ScanConcat(FRESH, objects, after, 0);
    ObjectsAreFound(FRESH, found, 0);
    var s := ScanAll(FRESH, objects, 0);
    BlocksOnlyGrow(s, after, n);
    if Preamble(after) {
      PreambleIsInvisible(s, after, n);
    }
    SpanIsObject(found, 0, i);
    assert FRESH.blocks + SpansOf(found, 0) == SpansOf(found, 0);
    BlockIsSlice(objects, after, SpansOf(found, 0), i);
  }

  /** A block found in the first part of a text is a slice of that part. */
  lemma BlockIsSlice(first: string, after: string, spans: seq<Span>, i: nat)
    requires spans <= ScanAll(FRESH, first + after, 0).blocks && i < |spans|
    requires spans[i].from <= spans[i].to <= |first|
    ensures |Blocks(first + after)| >= |spans| && Blocks(first + after)[i] == first[spans[i].from..spans[i].to]
    ensures |Blocks(first + after)| == |ScanAll(FRESH, first + after, 0).blocks|
  {
    hide ScanAll;
    assert (first + after)[spans[i].from..spans[i].to] == first[spans[i].from..spans[i].to];
  }

  lemma {:induction false} SpanIsObject(found: seq<Found>, at: nat, i: nat)
    requires i < |found|
    ensures |SpansOf(found, at)| == |found|
    ensures var span := SpansOf(found, at)[i];
            && at <= span.from <= span.to <= at + |TextOf(found)|
            && TextOf(found)[span.from - at..span.to - at] == found[i].Object()
    decreases |found|
  {
    hide Found.Object, TextOf, SpansOf;
    var f := found[0];
    var head := f.before + f.Object();
    var rest := TextOf(found[1..]);
    Unfold(found, at);
    SpanCount(found[1..], at + |head|);
    if i == 0 {
      assert (head + rest)[|f.before|..|head|] == f.Object();
    } else {
      SpanIsObject(found[1..], at + |head|, i - 1);
      var span := SpansOf(found[1..], at + |head|)[i - 1];
      assert SpansOf(found, at)[i] == span;
      SliceOfRest(head, rest, span.from - at - |head|, span.to - at - |head|);
    }
  }

  lemma SliceOfRest(head: string, rest: string, from: nat, to: nat)
    requires from <= to <= |rest|
    ensures (head + rest)[|head| + from..|head| + to] == rest[from..to]
  {
  }

  lemma {:induction false} SpanCount(found: seq<Found>, at: nat)
    ensures |SpansOf(found, at)| == |found|
    decreases |found|
  {
    hide Found.Object;
    if found != [] {
      SpanCount(found[1..], at + |found[0].before| + |found[0].Object()|);
    }
  }
}
