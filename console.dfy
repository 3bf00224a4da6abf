/**
 * The imperative side of the demo: `display()` appends characters to the
 * standard output stream, modelled as an OutputStream object whose `written`
 * field is everything printed so far. The case decorators copy `getText()`
 * into a local buffer and rewrite it in place, one character at a time, as
 * std::transform does.
 */
module Console {
  import opened AsciiCase
  import opened TextElements

  /** std::cout, seen as the sequence of characters written to it so far. */
  class OutputStream {
    var written: seq<char>

    constructor ()
      ensures written == []
    {
      written := [];
    }

    /** `std::cout << s` */
    method Write(s: string)
      modifies this
      ensures written == old(written) + s
    {
      written := written + s;
    }

    /** `std::cout << std::endl` (the flush is not observable here). */
    method EndLine()
      modifies this
      ensures written == old(written) + "\n"
    {
      written := written + "\n";
    }
  }

  /** `std::string t = s; std::transform(t.begin(), t.end(), t.begin(), f);`
      with f the conversion `k`: the result is the converted copy, and `s`
      itself is untouched. */
  method CaseCopy(k: CaseMap, s: string) returns (r: string)
    ensures r == MapText(k, s)
  {
    var buf := new char[|s|](i requires 0 <= i < |s| => s[i]);
    var i := 0;
    while i < buf.Length
      invariant 0 <= i <= buf.Length == |s|
      invariant forall j :: 0 <= j < i ==> buf[j] == MapChar(k, s[j])
      invariant forall j :: i <= j < buf.Length ==> buf[j] == s[j]
    {
      buf[i] := MapChar(k, buf[i]);
      i := i + 1;
    }
    r := buf[..];
  }

  /** `display()` of every element kind: appends Rendered(e) to the stream. */
  method Display(e: Element, out: OutputStream)
    modifies out
    ensures out.written == old(out.written) + Rendered(e)
    decreases e
  {
    match e
    case Simple(t) =>
      out.Write(t);
    case Plain(inner) =>
      Display(inner, out);
    case Upper(_) =>
      var upperText := CaseCopy(ToUpper, GetText(e));
      out.Write(upperText);
    case Lower(_) =>
      var lowerText := CaseCopy(ToLower, GetText(e));
      out.Write(lowerText);
    case NewLine(inner) =>
      Display(inner, out);
      out.EndLine();
  }

  /** The two conversions of the demo's base string. */
  lemma HelloWorldCases(s: string)
    requires s == "Hello, World!"
    ensures MapText(ToUpper, s) == "HELLO, WORLD!"
    ensures MapText(ToLower, s) == "hello, world!"
  {
  }

  /** What `main` prints for a base string `greeting`. */
  method ShowDecorators(greeting: string, out: OutputStream)
    modifies out
    ensures out.written == old(out.written)
      + "Original: " + greeting
      + "\nUppercase: " + MapText(ToUpper, greeting)
      + "\nLowercase: " + MapText(ToLower, greeting)
      + "\nWith New Line: " + greeting + "\n"
      + "Uppercase with New Line: " + MapText(ToUpper, greeting) + "\n"
  {
    var text := Simple(greeting);
    var upperText := Upper(text);
    var lowerText := Lower(text);
    var newLineText := NewLine(text);
    var innerUpperText := Upper(text);
    var upperNewLineText := NewLine(innerUpperText);

    out.Write("Original: ");
    Display(text, out);
    out.Write("\nUppercase: ");
    Display(upperText, out);
    out.Write("\nLowercase: ");
    Display(lowerText, out);
    out.Write("\nWith New Line: ");
    Display(newLineText, out);
    out.Write("Uppercase with New Line: ");
    Display(upperNewLineText, out);
    UpperDisplay(text);
    LowerDisplay(text);
    UpperThenNewLine(greeting);
  }

  /** The whole of what `main` prints. */
  method RunMain(out: OutputStream)
    modifies out
    ensures out.written == old(out.written)
      + "Original: " + "Hello, World!"
      + "\nUppercase: " + "HELLO, WORLD!"
      + "\nLowercase: " + "hello, world!"
      + "\nWith New Line: " + "Hello, World!" + "\n"
      + "Uppercase with New Line: " + "HELLO, WORLD!" + "\n"
  {
    var greeting := "Hello, World!";
    HelloWorldCases(greeting);
    ShowDecorators(greeting, out);
  }
}
