/**
 * The text elements of the decorator demo as values: a SimpleText holding a
 * string, and the four decorators (the plain TextDecorator, UpperCase,
 * LowerCase and NewLine) each wrapping one inner element.
 *
 * GetText models `getText()`, which only SimpleText defines and every
 * decorator inherits from TextDecorator as plain delegation. Rendered is the
 * specification of `display()`: the characters one call appends to the
 * output stream.
 */
module TextElements {
  import opened AsciiCase

  datatype Element =
    | Simple(text: string)
    | Plain(inner: Element)
    | Upper(inner: Element)
    | Lower(inner: Element)
    | NewLine(inner: Element)

  /** `getText()`: SimpleText returns its string; a decorator (of any kind,
      since no subclass overrides it) asks its inner element. The result is
      the string of the SimpleText at the bottom of `e`'s decorator stack. */
  function GetText(e: Element): (r: string)
    ensures e == Chain(Layers(e), r)
  {
    match e
    case Simple(t) => t
    case Plain(i) => GetText(i)
    case Upper(i) => GetText(i)
    case Lower(i) => GetText(i)
    case NewLine(i) => GetText(i)
  }

  /** What `display()` writes. The case decorators convert `getText()`, which
      is the base text, not what the inner element would display; the plain
      and the NewLine decorators call the inner element's `display()`.
      Whatever the decorators, the output is the base text, letter for letter
      up to ASCII case, followed by nothing but newlines. */
  function Rendered(e: Element): (r: string)
    ensures |r| >= |GetText(e)|
    ensures forall i :: 0 <= i < |GetText(e)| ==> LowerChar(r[i]) == LowerChar(GetText(e)[i])
    ensures forall i :: |GetText(e)| <= i < |r| ==> r[i] == '\n'
  {
    match e
    case Simple(t) => t
    case Plain(i) => Rendered(i)
    case Upper(i) => MapText(ToUpper, GetText(e))
    case Lower(i) => MapText(ToLower, GetText(e))
    case NewLine(i) => Rendered(i) + "\n"
  }

  // ---------------------------------------------------------------------
  // Decorator chains: an element seen as a stack of layers over a SimpleText.

  datatype Layer = PlainLayer | UpperLayer | LowerLayer | NewLineLayer

  predicate IsCaseLayer(l: Layer) { l == UpperLayer || l == LowerLayer }

  function CaseOfLayer(l: Layer): CaseMap
    requires IsCaseLayer(l)
  {
    if l == UpperLayer then ToUpper else ToLower
  }

  /** Wrap `e` in one decorator of kind `l`. */
  function Wrap(l: Layer, e: Element): Element
  {
    match l
    case PlainLayer => Plain(e)
    case UpperLayer => Upper(e)
    case LowerLayer => Lower(e)
    case NewLineLayer => NewLine(e)
  }

  /** The element made of the layers `ls` (outermost first) over Simple(s). */
  function Chain(ls: seq<Layer>, s: string): Element
    decreases |ls|
  {
    if ls == [] then Simple(s) else Wrap(ls[0], Chain(ls[1..], s))
  }

  /** The decorator layers of `e`, outermost first. */
  function Layers(e: Element): (ls: seq<Layer>)
    ensures |ls| == 0 <==> e.Simple?
  {
    match e
    case Simple(_) => []
    case Plain(i) => [PlainLayer] + Layers(i)
    case Upper(i) => [UpperLayer] + Layers(i)
    case Lower(i) => [LowerLayer] + Layers(i)
    case NewLine(i) => [NewLineLayer] + Layers(i)
  }

  /** Position of the outermost case layer, or |ls| when there is none. */
  function FirstCase(ls: seq<Layer>): (n: nat)
    ensures n <= |ls|
    ensures forall j :: 0 <= j < n ==> !IsCaseLayer(ls[j])
    ensures n < |ls| ==> IsCaseLayer(ls[n])
    decreases |ls|
  {
    if ls == [] || IsCaseLayer(ls[0]) then 0 else 1 + FirstCase(ls[1..])
  }

  function Newlines(n: nat): (r: string)
  {
    seq(n, _ => '\n')
  }

  /** Reference description of a chain's output: the base text converted by
      the outermost case layer (if any), followed by one newline for each
      NewLine layer above that case layer. Layers below it have no effect. */
  function ChainOutput(ls: seq<Layer>, s: string): string
  {
    var n := FirstCase(ls);
    (if n < |ls| then MapText(CaseOfLayer(ls[n]), s) else s)
      + Newlines(multiset(ls[..n])[NewLineLayer])
  }

  // ---------------------------------------------------------------------
  // getText()

  /** SimpleText returns its constructor string and displays exactly it. */
  lemma SimpleTextVerbatim(s: string)
    ensures GetText(Simple(s)) == s
    ensures Rendered(Simple(s)) == s
  {
  }

  /** No decorator changes what getText() returns. */
  lemma DecoratorKeepsText(l: Layer, e: Element)
    ensures GetText(Wrap(l, e)) == GetText(e)
  {
  }

  /** getText() of any chain of decorators is the innermost SimpleText's string. */
  lemma {:induction false} GetTextOfChain(ls: seq<Layer>, s: string)
    ensures GetText(Chain(ls, s)) == s
    decreases |ls|
  {
    if ls != [] {
      GetTextOfChain(ls[1..], s);
      DecoratorKeepsText(ls[0], Chain(ls[1..], s));
    }
  }

  // ---------------------------------------------------------------------
  // display()

  /** The plain TextDecorator displays exactly what its inner element displays. */
  lemma PlainIsTransparent(e: Element)
    ensures Rendered(Plain(e)) == Rendered(e)
  {
  }

  /** UpperCaseDecorator displays the upper-cased base text: same length, and
      upper-casing it again changes nothing. */
  lemma UpperDisplay(e: Element)
    ensures Rendered(Upper(e)) == MapText(ToUpper, GetText(e))
    ensures |Rendered(Upper(e))| == |GetText(e)|
    ensures MapText(ToUpper, Rendered(Upper(e))) == Rendered(Upper(e))
    ensures AllInCase(ToUpper, Rendered(Upper(e)))
  {
  }

  /** LowerCaseDecorator displays the lower-cased base text: same length, and
      lower-casing it again changes nothing. */
  lemma LowerDisplay(e: Element)
    ensures Rendered(Lower(e)) == MapText(ToLower, GetText(e))
    ensures |Rendered(Lower(e))| == |GetText(e)|
    ensures MapText(ToLower, Rendered(Lower(e))) == Rendered(Lower(e))
    ensures AllInCase(ToLower, Rendered(Lower(e)))
  {
  }

  /** NewLineDecorator displays its inner element followed by exactly one '\n'. */
  lemma NewLineAppendsOne(e: Element)
    ensures Rendered(NewLine(e)) == Rendered(e) + "\n"
    ensures |Rendered(NewLine(e))| == |Rendered(e)| + 1
    ensures Rendered(NewLine(e))[|Rendered(e)|] == '\n'
  {
  }

  /** A case decorator ignores every decorator beneath it: its output depends
      only on the base text of the chain. */
  lemma {:induction false} CaseIgnoresInner(l: Layer, ls: seq<Layer>, s: string)
    requires IsCaseLayer(l)
    ensures Rendered(Wrap(l, Chain(ls, s))) == MapText(CaseOfLayer(l), s)
  {
    GetTextOfChain(ls, s);
  }

  /** For instance Upper(Lower(x)) displays the same as Upper(x). */
  lemma {:induction false} UpperOverLower(e: Element)
    ensures Rendered(Upper(Lower(e))) == Rendered(Upper(e))
    ensures Rendered(Lower(Upper(e))) == Rendered(Lower(e))
  {
    DecoratorKeepsText(LowerLayer, e);
    DecoratorKeepsText(UpperLayer, e);
  }

  /** A newline under a case decorator disappears: the case decorator reads
      getText(), not the inner element's display(). */
  lemma {:induction false} UpperOverNewLine(s: string)
    ensures Rendered(Upper(NewLine(Simple(s)))) == MapText(ToUpper, s)
    ensures |Rendered(Upper(NewLine(Simple(s))))| == |s|
  {
    GetTextOfChain([NewLineLayer], s);
  }

  /** The "Uppercase with New Line" composition: NewLine(Upper(Simple(s)))
      displays upper(s) followed by a newline. */
  lemma UpperThenNewLine(s: string)
    ensures Rendered(NewLine(Upper(Simple(s)))) == MapText(ToUpper, s) + "\n"
  {
  }

  lemma NewlinesSucc(n: nat)
    ensures Newlines(n + 1) == Newlines(n) + "\n"
  {
  }

  /** A layer that is not a case layer adds to ChainOutput only the newline
      it writes, if it is a NewLine layer. */
  lemma ChainOutputStep(l: Layer, t: seq<Layer>, s: string)
    requires !IsCaseLayer(l)
    ensures ChainOutput([l] + t, s)
      == ChainOutput(t, s) + (if l == NewLineLayer then "\n" else "")
  {
    var ls, n := [l] + t, FirstCase(t);
    assert ls[1..] == t;
    assert FirstCase(ls) == n + 1;
    assert ls[..n + 1] == [l] + t[..n];
    assert multiset(ls[..n + 1]) == multiset{l} + multiset(t[..n]);
    if l == NewLineLayer {
      NewlinesSucc(multiset(t[..n])[NewLineLayer]);
    }
  }

  /** Every chain displays as ChainOutput describes. */
  lemma {:induction false} RenderedChain(ls: seq<Layer>, s: string)
    ensures Rendered(Chain(ls, s)) == ChainOutput(ls, s)
    decreases |ls|
  {
    if ls == [] {
      assert ls[..0] == [];
    } else if IsCaseLayer(ls[0]) {
      assert FirstCase(ls) == 0 && ls[..0] == [];
      CaseIgnoresInner(ls[0], ls[1..], s);
    } else {
      RenderedChain(ls[1..], s);
      ChainOutputStep(ls[0], ls[1..], s);
      assert ls == [ls[0]] + ls[1..];
    }
  }

  /** The length of a chain's output: the base text plus one per NewLine layer
      above the outermost case layer. */
  lemma {:induction false} RenderedChainLength(ls: seq<Layer>, s: string)
    ensures |Rendered(Chain(ls, s))| == |s| + multiset(ls[..FirstCase(ls)])[NewLineLayer]
  {
    RenderedChain(ls, s);
  }
}
