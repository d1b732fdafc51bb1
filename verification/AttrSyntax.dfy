/** The textual form of the expression attribute, as tokens: its printer and its parser. */
module AttrSyntax {
  import opened Wrappers
  import opened Decimal
  import opened ExprAttr

  /** `Marker` opens a nested attribute, `#neutrino.expr`. */
  datatype Token =
    | Less | Greater | LSquare | RSquare | Comma | Minus | Marker
    | Natural(n: nat)
    | Word(text: string)
    | Quoted(text: string)

  // ---------------------------------------------------------------- printing

  function PrintInt(i: int): seq<Token> {
    if i < 0 then [Minus, Natural(-i)] else [Natural(i)]
  }

  function PrintAttr(a: Attr): seq<Token> {
    [Less, Word(a.kind), Word(a.dtype)] + PrintInt(a.num) + PrintInt(a.slot)
    + [Quoted(a.name), Quoted(a.binop), LSquare] + PrintChildren(a.children) + [RSquare, Greater]
  }

  /** The children, comma separated, each in its full form. */
  function PrintChildren(children: seq<Attr>): seq<Token> {
    if children == [] then []
    else [Marker] + PrintAttr(children[0]) + if |children| == 1 then [] else [Comma] + PrintChildren(children[1..])
  }

  // ---------------------------------------------------------------- what parsing yields

  datatype Parsed<T> = Got(value: T, rest: seq<Token>) | Failed

  predicate StartsWith(toks: seq<Token>, t: Token) {
    toks != [] && toks[0] == t
  }

  function ParseWord(toks: seq<Token>): Parsed<string> {
    if toks != [] && (toks[0].Word? || toks[0].Quoted?) then Got(toks[0].text, toks[1..]) else Failed
  }

  function ParseQuoted(toks: seq<Token>): Parsed<string> {
    if toks != [] && toks[0].Quoted? then Got(toks[0].text, toks[1..]) else Failed
  }

  /** An optionally negated integer that must fit 64 bits. */
  function ParseInt(toks: seq<Token>): Parsed<I64> {
    var digits := if StartsWith(toks, Minus) then toks[1..] else toks;
    if digits == [] || !digits[0].Natural? then Failed
    else
      var i: int := if StartsWith(toks, Minus) then -(digits[0].n as int) else digits[0].n;
      if InI64(i) then Got(i, digits[1..]) else Failed
  }

  /** Everything up to and including the opening bracket; the children are still missing. */
  function ParseHead(toks: seq<Token>): (r: Parsed<Attr>)
    ensures r.Got? ==> |r.rest| < |toks|
  {
    if !StartsWith(toks, Less) then Failed
    else
      var kind := ParseWord(toks[1..]);
      if kind.Failed? then Failed
      else
        var dtype := ParseWord(kind.rest);
        if dtype.Failed? then Failed
        else
          var num := ParseInt(dtype.rest);
          if num.Failed? then Failed
          else
            var slot := ParseInt(num.rest);
            if slot.Failed? then Failed
            else
              var name := ParseQuoted(slot.rest);
              if name.Failed? then Failed
              else
                var binop := ParseQuoted(name.rest);
                if binop.Failed? || !StartsWith(binop.rest, LSquare) then Failed
                else Got(Attr(kind.value, dtype.value, num.value, slot.value, name.value, binop.value, []),
                         binop.rest[1..])
  }

  ghost predicate AllCanonical(children: seq<Attr>) {
    forall i :: 0 <= i < |children| ==> Canonical(children[i])
  }

  /** One attribute; it is checked as it is built, so a parsed attribute is canonical. */
  function ParseAttr(toks: seq<Token>): (r: Parsed<Attr>)
    ensures r.Got? ==> |r.rest| < |toks| && Canonical(r.value)
    decreases |toks|
  {
    var head := ParseHead(toks);
    if head.Failed? then Failed
    else
      var kids := if StartsWith(head.rest, RSquare) then Got([], head.rest[1..]) else ParseChildren(head.rest, []);
      if kids.Failed? || !StartsWith(kids.rest, Greater) then Failed
      else
        var a := head.value.(children := kids.value);
        if VerifyNode(a).None? then Got(a, kids.rest[1..]) else Failed
  }

  /** The remaining children and the closing bracket, after those already in `acc`. */
  function ParseChildren(toks: seq<Token>, acc: seq<Attr>): (r: Parsed<seq<Attr>>)
    requires AllCanonical(acc)
    ensures r.Got? ==> |r.rest| < |toks| && AllCanonical(r.value)
    decreases |toks|
  {
    if !StartsWith(toks, Marker) then Failed
    else
      hide VerifyNode;
      var child := ParseAttr(toks[1..]);
      if child.Failed? then Failed
      else if StartsWith(child.rest, Comma) then ParseChildren(child.rest[1..], acc + [child.value])
      else if StartsWith(child.rest, RSquare) then Got(acc + [child.value], child.rest[1..])
      else Failed
  }

  lemma NoneIsCanonical()
    ensures AllCanonical([])
  {
  }

  lemma ChildrenUnfold(toks: seq<Token>, acc: seq<Attr>)
    requires AllCanonical(acc)
    ensures !StartsWith(toks, Marker) ==> ParseChildren(toks, acc).Failed?
    ensures StartsWith(toks, Marker) ==>
      var child := ParseAttr(toks[1..]);
      if child.Failed? then ParseChildren(toks, acc).Failed?
      else
        && AllCanonical(acc + [child.value])
        && ParseChildren(toks, acc) ==
             if StartsWith(child.rest, Comma) then ParseChildren(child.rest[1..], acc + [child.value])
             else if StartsWith(child.rest, RSquare) then Got(acc + [child.value], child.rest[1..])
             else Failed
  {
    hide ParseAttr, Canonical;
  }

  // ---------------------------------------------------------------- the parser

  /** Consumes a token stream from left to right. */
  class AttrParser {
    const toks: seq<Token>
    var pos: nat

    predicate Valid()
      reads this
    {
      pos <= |toks|
    }

    function Rest(): seq<Token>
      requires Valid()
      reads this
    {
      toks[pos..]
    }

    constructor (toks: seq<Token>)
      ensures Valid() && this.toks == toks && pos == 0
    {
      this.toks, pos := toks, 0;
    }

    method Accept(t: Token) returns (ok: bool)
      requires Valid()
      modifies this
      ensures Valid() && ok == StartsWith(old(Rest()), t)
      ensures Rest() == if ok then old(Rest())[1..] else old(Rest())
    {
      ok := pos < |toks| && toks[pos] == t;
      if ok {
        pos := pos + 1;
      }
    }

    method Keyword() returns (text: Option<string>)
      requires Valid()
      modifies this
      ensures Valid() && |Rest()| <= |old(Rest())|
      ensures text.Some? <==> ParseWord(old(Rest())).Got?
      ensures text.Some? ==> ParseWord(old(Rest())) == Got(text.value, Rest())
    {
      if pos == |toks| || !(toks[pos].Word? || toks[pos].Quoted?) {
        return None;
      }
      text := Some(toks[pos].text);
      pos := pos + 1;
    }

    method QuotedString() returns (text: Option<string>)
      requires Valid()
      modifies this
      ensures Valid() && |Rest()| <= |old(Rest())|
      ensures text.Some? <==> ParseQuoted(old(Rest())).Got?
      ensures text.Some? ==> ParseQuoted(old(Rest())) == Got(text.value, Rest())
    {
      if pos == |toks| || !toks[pos].Quoted? {
        return None;
      }
      text := Some(toks[pos].text);
      pos := pos + 1;
    }

    method Integer() returns (i: Option<I64>)
      requires Valid()
      modifies this
      ensures Valid() && |Rest()| <= |old(Rest())|
      ensures i.Some? <==> ParseInt(old(Rest())).Got?
      ensures i.Some? ==> ParseInt(old(Rest())) == Got(i.value, Rest())
    {
      var negative := Accept(Minus);
      if pos == |toks| || !toks[pos].Natural? {
        return None;
      }
      var value: int := if negative then -(toks[pos].n as int) else toks[pos].n;
      if !InI64(value) {
        return None;
      }
      pos := pos + 1;
      i := Some(value);
    }

    method Head() returns (r: Option<Attr>)
      requires Valid()
      modifies this
      ensures Valid() && |Rest()| <= |old(Rest())|
      ensures r.Some? <==> ParseHead(old(Rest())).Got?
      ensures r.Some? ==> ParseHead(old(Rest())) == Got(r.value, Rest())
    {
      hide ParseWord, ParseQuoted, ParseInt;
      var open := Accept(Less);
      if !open { return None; }
      var kind := Keyword();
      if kind.None? { return None; }
      var dtype := Keyword();
      if dtype.None? { return None; }
      var num := Integer();
      if num.None? { return None; }
      var slot := Integer();
      if slot.None? { return None; }
      var name := QuotedString();
      if name.None? { return None; }
      var binop := QuotedString();
      if binop.None? { return None; }
      var bracket := Accept(LSquare);
      if !bracket { return None; }
      return Some(Attr(kind.value, dtype.value, num.value, slot.value, name.value, binop.value, []));
    }

    /** The children after the opening bracket, through the closing one. */
    method Children() returns (r: Option<seq<Attr>>)
      requires Valid()
      modifies this
      ensures Valid() && |Rest()| <= |old(Rest())|
      ensures r.Some? <==> ParseChildren(old(Rest()), []).Got?
      ensures r.Some? ==> ParseChildren(old(Rest()), []) == Got(r.value, Rest())
      decreases |Rest()|, 0
    {
      hide ParseAttr, ParseChildren, AllCanonical;
      var children: seq<Attr> := [];
      ghost var all := Rest();
      NoneIsCanonical();
      while true
        invariant Valid() && |Rest()| <= |all| && AllCanonical(children)
        invariant ParseChildren(all, []) == ParseChildren(Rest(), children)
        decreases |Rest()|
      {
        ChildrenUnfold(Rest(), children);
        var marker := Accept(Marker);
        if !marker { return None; }
        var child := Parse();
        if child.None? { return None; }
        children := children + [child.value];
        var comma := Accept(Comma);
        if !comma {
          break;
        }
      }
      var close := Accept(RSquare);
      if !close { return None; }
      return Some(children);
    }

    method Parse() returns (r: Option<Attr>)
      requires Valid()
      modifies this
      ensures Valid() && |Rest()| <= |old(Rest())|
      ensures r.Some? <==> ParseAttr(old(Rest())).Got?
      ensures r.Some? ==> ParseAttr(old(Rest())) == Got(r.value, Rest())
      ensures r.Some? ==> Canonical(r.value)
      decreases |Rest()|, 1
    {
      hide ParseHead, VerifyNode;
      var head := Head();
      if head.None? { return None; }
      var children: Option<seq<Attr>>;
      var none := Accept(RSquare);
      if none {
        children := Some([]);
      } else {
        children := Children();
      }
      if children.None? { return None; }
      var close := Accept(Greater);
      if !close { return None; }
      var a := head.value.(children := children.value);
      if VerifyNode(a).Some? { return None; }
      return Some(a);
    }
  }

  // ---------------------------------------------------------------- parsing undoes printing

  lemma HeadReadsBack(a: Attr, u: seq<Token>)
    ensures ParseHead([Less, Word(a.kind), Word(a.dtype)] + (PrintInt(a.num) + (PrintInt(a.slot)
              + ([Quoted(a.name), Quoted(a.binop), LSquare] + u)))) == Got(a.(children := []), u)
  {
    hide ParseInt, PrintInt;
    var last := [Quoted(a.name), Quoted(a.binop), LSquare] + u;
    IntReadsBack(a.num, PrintInt(a.slot) + last);
    IntReadsBack(a.slot, last);
    var toks := [Less, Word(a.kind), Word(a.dtype)] + (PrintInt(a.num) + (PrintInt(a.slot) + last));
    assert toks[1..][1..] == [Word(a.dtype)] + (PrintInt(a.num) + (PrintInt(a.slot) + last));
    assert toks[1..][1..][1..] == PrintInt(a.num) + (PrintInt(a.slot) + last);
    assert last[1..][1..][1..] == u;
  }

  lemma IntReadsBack(i: I64, u: seq<Token>)
    ensures ParseInt(PrintInt(i) + u) == Got(i, u)
  {
    if i < 0 {
      assert (PrintInt(i) + u)[1..] == [Natural(-(i as int))] + u;
    }
  }

  lemma PrintShape(a: Attr, u: seq<Token>)
    ensures PrintAttr(a) + u
      == [Less, Word(a.kind), Word(a.dtype)] + (PrintInt(a.num) + (PrintInt(a.slot)
           + ([Quoted(a.name), Quoted(a.binop), LSquare] + (PrintChildren(a.children) + ([RSquare, Greater] + u)))))
  {
    hide PrintInt, PrintChildren;
  }

  lemma AttrFrom(toks: seq<Token>, head: Attr, mid: seq<Token>, children: seq<Attr>, last: seq<Token>)
    requires ParseHead(toks) == Got(head, mid) && AllCanonical(children)
    requires if StartsWith(mid, RSquare) then children == [] && last == mid[1..]
             else ParseChildren(mid, []) == Got(children, last)
    requires StartsWith(last, Greater) && VerifyNode(head.(children := children)).None?
    ensures ParseAttr(toks) == Got(head.(children := children), last[1..])
  {
    hide ParseHead, ParseChildren, VerifyNode;
  }

  lemma ChildrenFrom(toks: seq<Token>, acc: seq<Attr>, first: Attr, follow: seq<Token>)
    requires AllCanonical(acc) && StartsWith(toks, Marker) && ParseAttr(toks[1..]) == Got(first, follow)
    ensures StartsWith(follow, Comma) ==>
      AllCanonical(acc + [first]) && ParseChildren(toks, acc) == ParseChildren(follow[1..], acc + [first])
    ensures StartsWith(follow, RSquare) ==> ParseChildren(toks, acc) == Got(acc + [first], follow[1..])
  {
    hide ParseAttr, Canonical;
  }

  lemma CanonicalParts(a: Attr)
    requires Canonical(a)
    ensures VerifyNode(a).None? && AllCanonical(a.children)
    ensures a.(children := []).(children := a.children) == a
  {
  }

  lemma SkipOne(t: Token, u: seq<Token>)
    ensures StartsWith([t] + u, t) && ([t] + u)[1..] == u
  {
  }

  lemma ListOpens(children: seq<Attr>, u: seq<Token>)
    ensures children == [] ==> PrintChildren(children) + ([RSquare] + u) == [RSquare] + u
    ensures StartsWith(PrintChildren(children) + ([RSquare] + u), RSquare) <==> children == []
  {
  }

  lemma PrintOpens(a: Attr, u: seq<Token>)
    ensures ParseHead(PrintAttr(a) + u)
         == Got(a.(children := []), PrintChildren(a.children) + ([RSquare] + ([Greater] + u)))
  {
    PrintShape(a, u);
    hide PrintAttr, PrintChildren, ParseHead;
    assert [RSquare, Greater] + u == [RSquare] + ([Greater] + u);
    HeadReadsBack(a, PrintChildren(a.children) + ([RSquare, Greater] + u));
  }

  /** Parsing what was printed gives the attribute back and leaves exactly what followed it. */
  lemma {:induction false} ParseUndoesPrint(a: Attr, u: seq<Token>)
    requires Canonical(a)
    ensures ParseAttr(PrintAttr(a) + u) == Got(a, u)
    decreases a, 0
  {
    CanonicalParts(a);
    hide *;
    var last := [Greater] + u;
    PrintOpens(a, u);
    SkipOne(Greater, u);
    ListOpens(a.children, last);
    SkipOne(RSquare, last);
    if a.children != [] {
      ParseUndoesPrintList(a.children, last, []);
      NoneBefore(a.children);
    }
    AttrFrom(PrintAttr(a) + u, a.(children := []), PrintChildren(a.children) + ([RSquare] + last), a.children, last);
  }

  lemma NoneBefore(children: seq<Attr>)
    ensures [] + children == children && AllCanonical([])
  {
  }

  lemma LastChild(child: Attr, u: seq<Token>)
    ensures PrintChildren([child]) + ([RSquare] + u) == [Marker] + (PrintAttr(child) + ([RSquare] + u))
  {
    hide PrintAttr;
  }

  lemma NextChild(children: seq<Attr>, u: seq<Token>)
    requires |children| > 1
    ensures PrintChildren(children) + u
         == [Marker] + (PrintAttr(children[0]) + ([Comma] + (PrintChildren(children[1..]) + u)))
  {
    hide PrintAttr;
  }

  lemma SplitFirst(children: seq<Attr>, acc: seq<Attr>)
    requires children != [] && AllCanonical(children)
    ensures Canonical(children[0]) && AllCanonical(children[1..])
    ensures acc + [children[0]] + children[1..] == acc + children
    ensures |children| == 1 ==> children == [children[0]]
  {
    hide Canonical;
    assert acc + [children[0]] + children[1..] == acc + ([children[0]] + children[1..]);
  }

  lemma {:induction false} ParseUndoesPrintList(children: seq<Attr>, u: seq<Token>, acc: seq<Attr>)
    requires children != [] && AllCanonical(children) && AllCanonical(acc)
    ensures ParseChildren(PrintChildren(children) + ([RSquare] + u), acc) == Got(acc + children, u)
    decreases children, 1
  {
    hide *;
    var first, rest := children[0], children[1..];
    SplitFirst(children, acc);
    if |children| == 1 {
      var follow := [RSquare] + u;
      LastChild(first, u);
      SkipOne(RSquare, u);
      SkipOne(Marker, PrintAttr(first) + follow);
      ParseUndoesPrint(first, follow);
      ChildrenFrom([Marker] + (PrintAttr(first) + follow), acc, first, follow);
    } else {
      var more := PrintChildren(rest) + ([RSquare] + u);
      NextChild(children, [RSquare] + u);
      SkipOne(Comma, more);
      SkipOne(Marker, PrintAttr(first) + ([Comma] + more));
      ParseUndoesPrint(first, [Comma] + more);
      ChildrenFrom([Marker] + (PrintAttr(first) + ([Comma] + more)), acc, first, [Comma] + more);
      ParseUndoesPrintList(rest, u, acc + [first]);
    }
  }

  /** No printed attribute is a prefix of the print of another. */
  lemma PrintIsPrefixFree(a: Attr, b: Attr, u: seq<Token>, v: seq<Token>)
    requires Canonical(a) && Canonical(b) && PrintAttr(a) + u == PrintAttr(b) + v
    ensures a == b && u == v
  {
    ParseUndoesPrint(a, u);
    ParseUndoesPrint(b, v);
  }
}
