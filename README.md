# Decorated text elements

A model of the Decorator-pattern text renderer in `Code/task_3.cpp`. The
program builds a `SimpleText` holding a string and wraps it in decorators
(`TextDecorator`, `UpperCaseDecorator`, `LowerCaseDecorator`,
`NewLineDecorator`). `display()` prints an element to standard output, and
`getText()` returns its text.

The model is split into three modules:

- `AsciiCase` (`ascii_case.dfy`): `::toupper` / `::tolower` in the default
  "C" locale. Only `a`–`z` and `A`–`Z` change. `MapText` is the
  character-by-character rewrite that `std::transform` performs with them.
- `TextElements` (`text_elements.dfy`): the elements as an inductive
  datatype `Simple | Plain | Upper | Lower | NewLine`. It also holds
  `GetText` (pure delegation down to the `SimpleText`) and `Rendered`, the
  specification of what one `display()` call prints. To state facts about
  arbitrary decorator stacks, an element is also viewed as a `Chain` of
  `Layer`s above a `SimpleText`. `ChainOutput` is an independent
  description of what such a chain displays: the base text converted by the
  outermost case decorator, if there is one, followed by one newline for
  each `NewLineDecorator` above that case decorator. Every decorator below
  the outermost case decorator has no effect, because the case decorators
  build their output from `getText()` and not from the inner `display()`.
  For example, `Upper(NewLine(Simple(s)))` prints no newline. The order of
  the two case decorators does not matter for the same reason, not because
  one conversion absorbs the other.
- `Console` (`console.dfy`): the imperative side. `OutputStream` stands for
  `std::cout`, and its `written` field holds everything printed so far.
  `Display` appends to it and is proved to append exactly `Rendered(e)`.
  `CaseCopy` copies the text into a local buffer and rewrites it in place
  with a loop, mirroring `std::string upperText = getText();
  std::transform(...)`. `RunMain` prints the same five labelled lines as
  `main`, and its contract gives the exact transcript.

The source does not have any error paths: every operation is total, and the
empty string displays as the empty string.

## Model

| member | source | states |
|---|---|---|
| `AsciiCase.UpperChar` | Code/task_3.cpp:65 | `::toupper` changes a character exactly when it is `a`–`z`. Its result is never a lower-case letter, and each of `a`–`z` becomes the capital at the same place in the alphabet. |
| `AsciiCase.LowerChar` | Code/task_3.cpp:79 | `::tolower` changes a character exactly when it is `A`–`Z`. Its result is never an upper-case letter, and each of `A`–`Z` becomes the small letter at the same place in the alphabet. |
| `AsciiCase.CaseCharsInverse` | Code/task_3.cpp:65 | `tolower` undoes `toupper` on small letters, and `toupper` undoes `tolower` on capitals. Neither conversion changes which letter a character is. |
| `AsciiCase.MapText` | Code/task_3.cpp:65 | `std::transform` with a case function keeps the length and converts each position independently. |
| `AsciiCase.MapCharFixedIff` | Code/task_3.cpp:65 | A conversion leaves a character alone if and only if that character is already in the target case. Its result is always in the target case. |
| `AsciiCase.MapTextInCase` | Code/task_3.cpp:65 | Every character of an upper-cased (lower-cased) string is in upper (lower) case. |
| `AsciiCase.MapTextFixedIff` | Code/task_3.cpp:65 | Converting a string leaves it unchanged if and only if all its characters are already in the target case. For example, upper-casing an upper-case string changes nothing. |
| `AsciiCase.MapTextIdempotent` | Code/task_3.cpp:65 | Converting a string twice gives the same result as converting it once. |
| `TextElements.SimpleTextVerbatim` | Code/task_3.cpp:28-34 | `SimpleText` returns its constructor string from `getText()` and displays exactly that string. |
| `TextElements.DecoratorKeepsText` | Code/task_3.cpp:49-51 | No decorator of any kind changes what `getText()` returns. |
| `TextElements.GetTextOfChain` | Code/task_3.cpp:49-51 | `getText()` of any stack of decorators over `SimpleText(s)` is `s`. |
| `TextElements.GetText` | Code/task_3.cpp:32-34 | `getText()` returns the string of the `SimpleText` at the bottom of the element's decorator stack. Every decorator inherits this by delegating at lines 49-51. `GetTextOfChain` states the same from the other side. |
| `TextElements.Rendered` | Code/task_3.cpp:29-94 | For any element, `display()` prints the base text letter for letter up to ASCII case, followed by nothing but newlines. `RenderedChain` gives the exact output. |
| `TextElements.PlainIsTransparent` | Code/task_3.cpp:46-48 | A plain `TextDecorator` displays exactly what its inner element displays. |
| `TextElements.UpperDisplay` | Code/task_3.cpp:63-67 | `UpperCaseDecorator` displays the upper-cased `getText()` of its inner element. The output has the base text's length, contains no lower-case letter, and upper-casing it again changes nothing. |
| `TextElements.LowerDisplay` | Code/task_3.cpp:77-81 | `LowerCaseDecorator` displays the lower-cased `getText()` of its inner element. The output has the base text's length, contains no upper-case letter, and lower-casing it again changes nothing. |
| `TextElements.NewLineAppendsOne` | Code/task_3.cpp:91-94 | `NewLineDecorator` displays its inner element's output followed by exactly one `'\n'`. |
| `TextElements.CaseIgnoresInner` | Code/task_3.cpp:63-66 | A case decorator over any stack of decorators over `SimpleText(s)` displays the converted `s`. Whatever lies below it has no effect. |
| `TextElements.UpperOverNewLine` | Code/task_3.cpp:63-66 | `Upper(NewLine(Simple(s)))` displays `upper(s)` with no newline, and the output is exactly as long as `s`. The case decorator reads `getText()`, so the inner newline disappears. |
| `TextElements.UpperOverLower` | Code/task_3.cpp:64 | `Upper(Lower(x))` displays the same as `Upper(x)`, and `Lower(Upper(x))` the same as `Lower(x)`. |
| `TextElements.UpperThenNewLine` | Code/task_3.cpp:106-107 | `NewLine(Upper(Simple(s)))` displays `upper(s) + "\n"`. |
| `TextElements.RenderedChain` | Code/task_3.cpp:29-94 | Every decorator stack displays as `ChainOutput` describes: the outermost case decorator decides the case of the base text, each `NewLineDecorator` above it adds one newline, and everything below it is ignored. |
| `TextElements.RenderedChainLength` | Code/task_3.cpp:91-94 | A stack's output is as long as the base text plus the number of `NewLineDecorator`s above the outermost case decorator. |
| `Console.OutputStream.Write` | Code/task_3.cpp:30 | `std::cout << s` appends `s` to what has been written. |
| `Console.OutputStream.EndLine` | Code/task_3.cpp:93 | `std::cout << std::endl` appends one `'\n'`. |
| `Console.CaseCopy` | Code/task_3.cpp:64-65 | Copying the text into a local buffer and rewriting it in place, position by position, gives the converted string. |
| `Console.Display` | Code/task_3.cpp:29-94 | `display()` of any element appends exactly `Rendered(e)` to the stream and leaves the earlier output unchanged. |
| `Console.HelloWorldCases` | Code/task_3.cpp:101 | `"Hello, World!"` upper-cases to `"HELLO, WORLD!"` and lower-cases to `"hello, world!"`. |
| `Console.ShowDecorators` | Code/task_3.cpp:102-118 | For any base string, the five compositions built in `main`, printed with their labels, produce the original, upper-cased, lower-cased and newline-terminated texts in order. |
| `Console.RunMain` | Code/task_3.cpp:100-119 | `main` prints exactly `Original: Hello, World!\nUppercase: HELLO, WORLD!\nLowercase: hello, world!\nWith New Line: Hello, World!\nUppercase with New Line: HELLO, WORLD!\n`. |

## Left out

- Heap allocation, the raw `TextElement*` links between decorators, and the order of the `delete` calls in `main` are left out. They concern memory management, not output, so elements are modelled as values. Sharing one `SimpleText` between several decorators therefore looks like copying it.
- The flush that `std::endl` performs is left out. Only the `'\n'` it writes is modelled.
- `::toupper` / `::tolower` in any locale other than "C" are left out, and so are characters outside ASCII. Any non-letter character is left unchanged. The undefined behaviour of passing a negative `char` to these functions is not modelled.
- Real console I/O is not modelled. Standard output is the character sequence held by `OutputStream`.
- The second demonstration program (a mutable text buffer with a formatter list, a document and an editor) is not part of this model. Its source file is not among the files modelled here.
