# smashwords-downloader: the EPUB-to-text core, modelled in Dafny

The downloader in `cmd/smashwords-downloader` fetches books and turns EPUB
files into plain text. Two converters do this.

**The Go converter.** It walks each chapter's HTML tokens with a small
renderer taken from goreader (`parser` / `cellbuf` in `main.go`; the exported
`Parser` / `Cellbuf` in `epubParse.go` is the same code). The renderer:

- keeps a stack of open element atoms;
- lays text and layout directives out on an 80-column character grid, with
  greedy word wrap and storage grown in 1024-cell chunks;
- collects every displayable text token verbatim in a string builder.

Around it sit a few string expressions: the download file name
(`createBookFileName`), the `.epub` to `.txt` output name, and the removal of
tabs from each chapter.

**The Python converter.** `epubconvert.py` drives three expat-based parsers:

- `ContainerParser` finds the package document (the rootfile) in
  `META-INF/container.xml`;
- `BookParser` reads the title, the author and the NCX reference from the
  package document;
- `TocParser` flattens the nested `navPoint`s of the NCX into an outline with
  levels.

`convert` then writes three lines per outline entry: a star heading, a fold
marker carrying the level, and the chapter text.

## How the model is organised

Each piece the source updates in place is a class whose methods change its
fields, proved against a value-level specification.

- **Layout.** The class `Layout.Cellbuf` is specified by the `Grid` value and
  the functions `PutCell`, `PutRunes`, `WordOrigin`, `PlaceWord(s)` and
  `LayoutText`.
- **Walker.** The class `Walker.Parser` is specified by the `Walk` value and
  the functions `Step` and `Run`.
- **XML parsers.** Each parser class (`Container.ContainerParser`,
  `Book.BookParser`, `Toc.TocParser`) has one handler method per expat
  callback. Each handler is proved equal to a pure handler function
  (`OnStart`, `OnChars`, `OnEnd`) that returns the new state or the raised
  exception. Its `Parse` loop is proved equal to `Run`.
- **Conversion.** `Epub2Txt.Convert` runs the three parser classes and the
  entry loop `AssembleEntries`. It is proved equal to `ConvertSpec`.

What the source promises is then proved about those functions, mostly in
`LayoutFacts`, `WalkerFacts` and the lemma sections of each module.

Inputs the model does not compute are represented as follows:

- The HTML tokenizer is a sequence of `Token`s. An `Err` token is where
  tokenizing stops; `Err(EOF)` is the end of input.
- Expat is a sequence of `Start` / `Chars` / `End` events.
- `urllib.unquote` is a function parameter.
- The zip archive is two function parameters: `xmlOf` gives the events of an
  XML entry and `chapterOf` gives the `html2text` output of a chapter. `None`
  from either means the entry is missing, which `ZipFile.read` reports as a
  KeyError.

Three behaviours of the code shape the model:

- An end tag that finds the tag stack empty slices out of bounds. In Go that
  is a run-time panic that ends the process, so the model gives it the
  outcome `Panicked`.
- The `space` flag of `cellbuf` is never set, because the assignments are
  commented out. Words are therefore laid out back to back, with no column
  between them.
- `lmargin` is never assigned, so every walk runs with margin 0.

## Model

| member | source | states |
|---|---|---|
| Names.CreateBookFileName | cmd/smashwords-downloader/main.go:54-60 | the name is the title with every non-`\w` character removed (the stem is exactly `StripNonWord(title)`), then "." + format; its length is that count + 1 + the format's length, so it is never empty |
| Names.IsWordChar | cmd/smashwords-downloader/main.go:56 | Go RE2's `\w`: ASCII digits, letters and underscore (definition) |
| Names.StripNonWord | cmd/smashwords-downloader/main.go:56-57 | `ReplaceAllString(title, "")` with `[^\w]`: the runes of the title that are `\w`, in order (definition; properties in the rows below) |
| Names.CleanTitleKept | cmd/smashwords-downloader/main.go:56-59 | a title made only of `[0-9A-Za-z_]` is used unchanged |
| Names.StripNonWordIdempotent | cmd/smashwords-downloader/main.go:56-57 | cleaning a cleaned title changes nothing |
| Names.StripNonWordAppend | cmd/smashwords-downloader/main.go:56-57 | cleaning works piecewise, so surviving characters keep their order |
| Names.StripNonWordCounts | cmd/smashwords-downloader/main.go:56-57 | each word character survives exactly as often as it occurs; every other character is removed |
| Names.OutputFileName | cmd/smashwords-downloader/main.go:233 | the output name always ends in ".txt"; a trailing ".epub" is replaced by it, and any other name gets it appended |
| Names.EpubRenamedToTxt | cmd/smashwords-downloader/main.go:213-233 | `<stem>.epub`, the only files converted, is written to `<stem>.txt` |
| Names.StripTabs | cmd/smashwords-downloader/main.go:254 | the written chapter contains no tab |
| Names.StripTabsCounts | cmd/smashwords-downloader/main.go:254 | only tabs are removed; every other rune keeps its count |
| Names.StripTabsAppend | cmd/smashwords-downloader/main.go:254 | tab stripping works piecewise, so the remaining runes keep their order |
| Names.StripTabsNoTab | cmd/smashwords-downloader/main.go:254 | a chapter without tabs is written unchanged |
| Scan.SkipSpace | cmd/smashwords-downloader/main.go:413-415 | the result is the suffix left after the leading separators and starts with a non-separator |
| Scan.IsSpace | cmd/smashwords-downloader/main.go:413-414 | the separators `bufio.ScanWords` splits on (definition) |
| Scan.WordLength | cmd/smashwords-downloader/main.go:413-415 | the length of the longest separator-free prefix |
| Scan.Words | cmd/smashwords-downloader/main.go:413-415 | every token `bufio.ScanWords` yields is non-empty and separator-free |
| Scan.WordsKeepEveryRune | cmd/smashwords-downloader/main.go:413-419 | the words, glued together, are the input with its separators removed |
| Scan.SingleWord | cmd/smashwords-downloader/main.go:413-419 | a non-empty, separator-free string is exactly one word |
| Scan.WordsAcrossSeparator | cmd/smashwords-downloader/main.go:413-419 | a word followed by a separator is scanned independently of what follows |
| Scan.WordsOfWordStart | cmd/smashwords-downloader/main.go:413-419 | a string that starts with a non-separator yields its longest separator-free prefix first |
| Scan.TwoWords | cmd/smashwords-downloader/main.go:413-419 | "a b" scans to exactly [a, b] |
| Layout.StyleIsUnionOfEntries | cmd/smashwords-downloader/main.go:379-398 | a colour/attribute bit is set exactly when some stack entry contributes it |
| Layout.StyleIgnoresOrderAndRepetition | cmd/smashwords-downloader/main.go:379-398 | the resolved foreground depends only on which tags are on the stack |
| Layout.StyleOf | cmd/smashwords-downloader/main.go:379-398 | the `fg` that `style` computes: `ColorDefault` OR'd with each entry's flag, left to right (definition; properties in the two rows above) |
| Layout.HeadingAndBoldCombine | cmd/smashwords-downloader/main.go:383-390 | `h1` inside `b` is magenta and bold |
| Layout.Grow | cmd/smashwords-downloader/main.go:439-441 | storage grows in whole 1024-cell chunks, only until the index fits (the smallest such length), never shrinks, and keeps old cells; new cells are blank |
| Layout.PutCell | cmd/smashwords-downloader/main.go:437-443 | the cell at `y*width+x` is the new cell; every other cell is its old value or blank; only the storage changes |
| Layout.PutRunes | cmd/smashwords-downloader/main.go:424-427 | writing a word advances the column by its rune count and changes nothing but storage and column |
| Layout.WordOrigin | cmd/smashwords-downloader/main.go:416-423 | choosing a word's start moves only the cursor |
| Layout.PlaceWord | cmd/smashwords-downloader/main.go:415-427 | one pass of the word loop: choose the origin, then write the runes (properties in LayoutFacts.PlaceWordLaysOutWord) |
| Layout.PlaceWords | cmd/smashwords-downloader/main.go:415-429 | the word loop over every scanned word, in order; keeps the surface sane (properties in LayoutFacts.PlaceWordsStaysInside) |
| Layout.LayoutText | cmd/smashwords-downloader/main.go:401-404 | an empty string changes nothing |
| Layout.Cellbuf.constructor | cmd/smashwords-downloader/main.go:288 | a fresh surface: width 80, everything else zero |
| Layout.Cellbuf.Style | cmd/smashwords-downloader/main.go:379-398 | only `fg` changes, to the union of the stack's flags |
| Layout.Cellbuf.SetCell | cmd/smashwords-downloader/main.go:437-443 | the fields after the grow loop and the write are `PutCell` of the old state |
| Layout.Cellbuf.AppendText | cmd/smashwords-downloader/main.go:401-433 | the new state is `LayoutText` of the old one: snap to the margin, then place each scanned word |
| Layout.Cellbuf.MoveToOrigin | cmd/smashwords-downloader/main.go:416-423 | the loop head: an owed separator column, then wrap to the next row when the word does not fit |
| Layout.Cellbuf.PutWord | cmd/smashwords-downloader/main.go:424-427 | the rune loop leaves the state `PutRunes` describes |
| LayoutFacts.PutRunesWritesWord | cmd/smashwords-downloader/main.go:424-427 | rune j of the word is stored at the cursor's index + j, with the current fg and bg |
| LayoutFacts.PutRunesKeepsOthers | cmd/smashwords-downloader/main.go:424-427 | every other cell keeps its value, or is blank if newly grown |
| LayoutFacts.PutRunesCells | cmd/smashwords-downloader/main.go:424-427 | storage only grows while a word is written |
| LayoutFacts.PlaceWordLaysOutWord | cmd/smashwords-downloader/main.go:415-427 | a word that fits starts at the cursor; one that does not starts at the margin of the next row; it is never split and the cursor ends right after it |
| LayoutFacts.PlaceWordsKeepsSettings | cmd/smashwords-downloader/main.go:415-429 | word placement keeps width, margin, the space flag and attributes, and never decreases the row |
| LayoutFacts.LayoutTextKeepsSettings | cmd/smashwords-downloader/main.go:401-433 | the same for a whole `appendText` call |
| LayoutFacts.LayoutOneWord | cmd/smashwords-downloader/main.go:413-427 | a text that is a single word is placed as that word |
| LayoutFacts.LayoutTwoWords | cmd/smashwords-downloader/main.go:413-427 | two words that fit are written back to back from the cursor, with no gap |
| LayoutFacts.PlaceWordsStaysInside | cmd/smashwords-downloader/main.go:415-427 | if lmargin <= col <= width and no word is wider than width − lmargin, each word starts at or after the margin and ends before `width`, rows only grow, and the cursor stays within bounds |
| LayoutFacts.LayoutTextStaysInside | cmd/smashwords-downloader/main.go:401-427 | the same bound for a whole `appendText` call |
| Walker.Dashes | cmd/smashwords-downloader/main.go:373 | `strings.Repeat("-", n)` is n dashes |
| Walker.AltLine | cmd/smashwords-downloader/main.go:345-349 | an `alt` attribute ends at the margin of a later row, keeping width, margin and attributes |
| Walker.StartTagEffect | cmd/smashwords-downloader/main.go:339-375 | the dispatch of `handleStartTag`, defined case by case: `br`, headings/`title`/`div`/`tr`, `p`, `hr`, `img` |
| Walker.ImgEffect | cmd/smashwords-downloader/main.go:341-358 | the `img` case: each `alt` attribute in order lays out its text and ends the row; other attributes change nothing |
| Walker.TextStep | cmd/smashwords-downloader/main.go:325-335 | `handleText`: nothing when the stack top is `style`; otherwise restyle from the stack, lay out, and append the data to the text |
| Walker.Step | cmd/smashwords-downloader/main.go:302-314 | one loop pass for a token that does not end the walk: a start tag pushes then dispatches, a self-closing tag only dispatches, text goes to `TextStep`, an end tag pops |
| Walker.Run | cmd/smashwords-downloader/main.go:298-321 | the token loop: stops at the first error token (EOF returns nil, any other error is returned) and panics on an end tag with the stack empty (definition; properties in WalkerFacts) |
| Walker.Parser.constructor | cmd/smashwords-downloader/main.go:286-289 | a walk starts with an empty stack, the caller's builder and a fresh surface |
| Walker.Parser.HandleStartTag | cmd/smashwords-downloader/main.go:339-375 | only the surface changes, as `StartTagEffect` says; the stack and the text are outside its frame |
| Walker.Parser.HandleHr | cmd/smashwords-downloader/main.go:370-373 | one row down, column 0, then a row of `width` dashes |
| Walker.Parser.HandleImg | cmd/smashwords-downloader/main.go:341-358 | the attribute loop leaves the state `ImgEffect` describes |
| Walker.Parser.HandleAlt | cmd/smashwords-downloader/main.go:345-349 | lay out "Alt text: " + value, then go to the margin of the next row |
| Walker.Parser.HandleText | cmd/smashwords-downloader/main.go:325-335 | one `TextStep`: nothing inside `style`; otherwise restyle, lay out, and append the data verbatim |
| Walker.Parser.Parse | cmd/smashwords-downloader/main.go:298-321 | the token loop ends in the state and outcome `Run` gives: stops at the first error token, panics on an end tag with an empty stack |
| Walker.ParseText | cmd/smashwords-downloader/main.go:286-295 | returns the text gathered so far, with the outcome, in both the error and the success case |
| WalkerFacts.ClosingTagsPopTheStack | cmd/smashwords-downloader/main.go:305-313 | end tags pop the top entry whatever its name; tokens that close `open` more elements than they open remove exactly the top `open` entries; balanced tags leave the stack as it was |
| WalkerFacts.UnmatchedEndTagPanics | cmd/smashwords-downloader/epubParse.go:65 | an end tag on an empty stack panics and nothing after it runs |
| WalkerFacts.OutputIsKeptText | cmd/smashwords-downloader/main.go:325-333 | the output is the initial builder contents followed by the kept text tokens, in order; alt text and rules never reach it |
| WalkerFacts.UnstyledOutputIsAllText | cmd/smashwords-downloader/main.go:325-333 | without `style` elements, the output is every text token, verbatim and in order |
| WalkerFacts.ErrorTokenEndsWalk | cmd/smashwords-downloader/main.go:303-319 | an error token ends the walk: EOF returns nil, any other error is returned, the state is kept and no later token is read |
| WalkerFacts.ImgKeepsSettings | cmd/smashwords-downloader/main.go:341-358 | `img` keeps width, margin and attributes and never moves up |
| WalkerFacts.StartTagOnlyMovesDown | cmd/smashwords-downloader/main.go:339-375 | a start tag never changes width, margin, the space flag or attributes, and never moves up; only `img` and `hr` draw; tags outside the table change nothing |
| WalkerFacts.PlainTagMoves | cmd/smashwords-downloader/main.go:359-369 | only the cursor moves: `br` gives row+1 and col = lmargin; `h1`–`h6`, `title`, `div` and `tr` give row+2 and col = lmargin; `p` gives row+2 and col = lmargin+2; any other tag except `img` and `hr` changes nothing |
| WalkerFacts.ParagraphIndentsFirstWord | cmd/smashwords-downloader/main.go:366-369 | after `p`, the first word that fits starts two rows down at column lmargin + 2 |
| WalkerFacts.HrDrawsRule | cmd/smashwords-downloader/main.go:370-373 | `hr` moves one row down and fills columns 0 to width−1 of that row with '-', leaving col = width; no other cell changes |
| WalkerFacts.ImgLaysOutAltText | cmd/smashwords-downloader/main.go:343-349 | an `alt` attribute lays out "Alt text: " + value, then goes to the margin of the next row |
| WalkerFacts.ImgReadsOnlyAlt | cmd/smashwords-downloader/main.go:343-357 | only `alt` attributes matter; the `src` manifest scan has no effect |
| WalkerFacts.AltTextWords | cmd/smashwords-downloader/main.go:346 | alt text reaches the surface as "Alt", "text:", then the value's words |
| WalkerFacts.ParagraphOfTwoWords | cmd/smashwords-downloader/main.go:305-333 | `<p>a b</p>` outputs "a b", ends with an empty stack, and lays out a at column 2 of row 2 with b right after it |
| WalkerFacts.HelloWorld | cmd/smashwords-downloader/main.go:366-369 | `<p>Hello world</p>`: "Hello" is at columns 2–6 and "world" at columns 7–11 of row 2; the output is "Hello world" |
| Xml.Get | cmd/smashwords-downloader/epubconvert.py:30 | `attributes[key]` succeeds exactly when the key is present, and otherwise raises KeyError(key) |
| Container.ContainerParser.constructor | cmd/smashwords-downloader/epubconvert.py:23-25 | `rootfile` is "" and the XML is kept |
| Container.ContainerParser.StartElement | cmd/smashwords-downloader/epubconvert.py:27-30 | the handler's effect or exception is `OnStart`'s |
| Container.ContainerParser.Parse | cmd/smashwords-downloader/epubconvert.py:32-36 | returns the rootfile of running all events, or the first exception |
| Container.OnStart | cmd/smashwords-downloader/epubconvert.py:27-30 | `startElement`: a `rootfile` resets the buffer and takes `full-path`, or raises KeyError; other elements change nothing |
| Container.Run | cmd/smashwords-downloader/epubconvert.py:32-35 | expat's callbacks in order, stopping at the first exception; only start tags reach a handler |
| Container.ParseContainer | cmd/smashwords-downloader/epubconvert.py:22-36 | `ContainerParser(xml).parseContainer()` from the initial state (properties in the rows below) |
| Container.NoRootfileGivesEmpty | cmd/smashwords-downloader/epubconvert.py:24-36 | without a `rootfile` element the result is "" |
| Container.FailsIffMissingPath | cmd/smashwords-downloader/epubconvert.py:28-30 | a run fails exactly when some `rootfile` lacks `full-path`, and then with KeyError('full-path') |
| Container.ContainerKeyError | cmd/smashwords-downloader/epubconvert.py:30-36 | the same for `parseContainer` |
| Container.LastRootfileWins | cmd/smashwords-downloader/epubconvert.py:28-30 | with several `rootfile`s, the last one's `full-path` is returned |
| Container.RunAppend | cmd/smashwords-downloader/epubconvert.py:35 | parsing two stretches of events is parsing the second from where the first stopped; an exception stops everything |
| Book.BookParser.constructor | cmd/smashwords-downloader/epubconvert.py:40-46 | empty strings, both flags off |
| Book.BookParser.StartElement | cmd/smashwords-downloader/epubconvert.py:48-57 | the handler's effect or exception is `OnStart`'s |
| Book.BookParser.Characters | cmd/smashwords-downloader/epubconvert.py:59-63 | the handler's effect is `OnChars`'s |
| Book.BookParser.EndElement | cmd/smashwords-downloader/epubconvert.py:65-73 | the handler's effect is `OnEnd`'s |
| Book.BookParser.Parse | cmd/smashwords-downloader/epubconvert.py:75-81 | returns (title, author, ncx) after running all events, or the first exception |
| Book.OnStart | cmd/smashwords-downloader/epubconvert.py:48-57 | `startElement`: `dc:title` and `dc:creator` reset the buffer and set their flag; an `item` with id ncx/toc/ncxtoc sets `ncx` to its `href`; missing keys raise KeyError |
| Book.OnChars | cmd/smashwords-downloader/epubconvert.py:59-63 | `characters`: data is appended to the buffer while a flag is set |
| Book.OnEnd | cmd/smashwords-downloader/epubconvert.py:65-73 | `endElement`: `dc:title` / `dc:creator` clear the flag, store the buffer as title / author and reset it |
| Book.Run | cmd/smashwords-downloader/epubconvert.py:75-80 | expat's callbacks in order, stopping at the first exception |
| Book.ParseBook | cmd/smashwords-downloader/epubconvert.py:39-81 | `BookParser(xml).parseBook()`: (title, author, ncx) or the first exception (properties in the rows below) |
| Book.BufferCollects | cmd/smashwords-downloader/epubconvert.py:59-63 | inside a title or creator, all character data is appended to the buffer and nothing else but `ncx` changes |
| Book.TitleIsLastTitleText | cmd/smashwords-downloader/epubconvert.py:48-69 | `title` is the character data of the last `dc:title` element |
| Book.AuthorIsLastCreatorText | cmd/smashwords-downloader/epubconvert.py:52-73 | `author` is the character data of the last `dc:creator` element |
| Book.NcxOnlyAtItems | cmd/smashwords-downloader/epubconvert.py:55-57 | `ncx` changes only at an `item` whose id is "ncx", "toc" or "ncxtoc" |
| Book.LastNcxItemWins | cmd/smashwords-downloader/epubconvert.py:55-57 | `ncx` is the href of the last such item |
| Book.NoNcxItemGivesEmpty | cmd/smashwords-downloader/epubconvert.py:46-57 | without such an item, `ncx` is "" |
| Book.ItemWithoutIdRaises | cmd/smashwords-downloader/epubconvert.py:56 | an `item` without `id` raises KeyError('id') |
| Book.NcxItemWithoutHrefRaises | cmd/smashwords-downloader/epubconvert.py:56-57 | an NCX item without `href` raises KeyError('href'); another item needs no `href` |
| Toc.OnStart | cmd/smashwords-downloader/epubconvert.py:101-112 | after `startElement`, every NavPoint reference still names an outline entry |
| Toc.OnChars | cmd/smashwords-downloader/epubconvert.py:114-116 | `characters`: data is appended to the buffer inside `text`; every NavPoint reference stays in range |
| Toc.OnEnd | cmd/smashwords-downloader/epubconvert.py:118-124 | `endElement`: `</navPoint>` pops into `currentNP` or raises IndexError; `</text>` stores the buffer in the current entry; references stay in range |
| Toc.ParseToc | cmd/smashwords-downloader/epubconvert.py:93-132 | `TocParser(xml).parseToc()`: the outline or the first exception (properties in the rows below) |
| Toc.Run | cmd/smashwords-downloader/epubconvert.py:131 | the same invariant holds after any run of events |
| Toc.TocParser.constructor | cmd/smashwords-downloader/epubconvert.py:94-99 | no current entry, an empty stack and an empty outline |
| Toc.TocParser.StartElement | cmd/smashwords-downloader/epubconvert.py:101-112 | the handler's effect or exception is `OnStart`'s |
| Toc.TocParser.Characters | cmd/smashwords-downloader/epubconvert.py:114-116 | the handler's effect is `OnChars`'s |
| Toc.TocParser.EndElement | cmd/smashwords-downloader/epubconvert.py:118-124 | the handler's effect or exception is `OnEnd`'s |
| Toc.TocParser.Parse | cmd/smashwords-downloader/epubconvert.py:126-132 | returns the outline after running all events, or the first exception |
| Toc.RunHeads | cmd/smashwords-downloader/epubconvert.py:102-107 | each `navPoint` is appended in start-tag order, with level = the number of `navPoint`s open around it |
| Toc.OutlineLevels | cmd/smashwords-downloader/epubconvert.py:102-107 | the outline's levels and ids are those of the reference definitions over the events |
| Toc.OpenHeads | cmd/smashwords-downloader/epubconvert.py:102-107 | a `navPoint` start tag appends one entry at level \|stack\| with its id, and pushes it |
| Toc.OtherHeads | cmd/smashwords-downloader/epubconvert.py:108-124 | every other event keeps ids and levels, and only `</navPoint>` shrinks the stack |
| Toc.RunKeepsNested | cmd/smashwords-downloader/epubconvert.py:102-120 | the stack holds the open entries, outermost first: the entry at depth j has level j |
| Toc.ClosingNavPointSelectsClosed | cmd/smashwords-downloader/epubconvert.py:119-120 | `</navPoint>` pops, and `currentNP` becomes the popped entry (not its parent) |
| Toc.ClosingWithEmptyStackRaises | cmd/smashwords-downloader/epubconvert.py:120 | `</navPoint>` with nothing open raises IndexError |
| Toc.ContentBeforeNavPointRaises | cmd/smashwords-downloader/epubconvert.py:108-109 | a `content` before any `navPoint` raises: KeyError('src') without `src`, otherwise AttributeError on None |
| Toc.NoNavPointNoCurrent | cmd/smashwords-downloader/epubconvert.py:96-120 | without `navPoint` start tags nothing is ever current or open |
| Toc.TextCollects | cmd/smashwords-downloader/epubconvert.py:114-116 | inside `text`, the buffer grows by exactly the character data; the flag, `currentNP`, the stack and the outline's length stay (a `content` element in between may still set the current entry's `content`) |
| Toc.TextGoesToCurrent | cmd/smashwords-downloader/epubconvert.py:110-124 | the current entry's text is exactly the character data between `<text>` and `</text>` |
| Toc.ContentAfterChildGoesToChild | cmd/smashwords-downloader/epubconvert.py:108-120 | a `content` after a child closes belongs to the child, not the parent |
| Toc.RunAppend | cmd/smashwords-downloader/epubconvert.py:131 | parsing two stretches of events is parsing the second from where the first stopped |
| Paths.Split | cmd/smashwords-downloader/epubconvert.py:145 | `str.split` on one character gives at least one piece |
| Paths.JoinSplit | cmd/smashwords-downloader/epubconvert.py:145 | joining the split pieces gives the string back |
| Paths.Join | cmd/smashwords-downloader/epubconvert.py:145 | `sep.join(parts)` (definition; inverse of Split, see the row above) |
| Paths.SplitAround | cmd/smashwords-downloader/epubconvert.py:145 | splitting at a separator splits each side independently |
| Paths.SplitNone | cmd/smashwords-downloader/epubconvert.py:145 | a string without the separator is one piece |
| Paths.LastSep | cmd/smashwords-downloader/epubconvert.py:145 | the position of the last separator, with none after it |
| Paths.Ops | cmd/smashwords-downloader/epubconvert.py:145-147 | `ops` is empty or ends in "/" |
| Paths.OpsIsDirectory | cmd/smashwords-downloader/epubconvert.py:145-147 | `ops` is the rootfile up to and including its last "/", or "" when there is no "/" or nothing comes before it |
| Paths.OpsAtTop | cmd/smashwords-downloader/epubconvert.py:145-147 | a rootfile without "/" gives "" |
| Paths.OpsOfSubdirectory | cmd/smashwords-downloader/epubconvert.py:145-147 | `dir/name` gives `dir/` |
| Paths.ChapterPathIsPrefix | cmd/smashwords-downloader/epubconvert.py:154 | the chapter path is the longest prefix without "#": the whole reference, or everything up to the first "#" |
| Paths.ChapterPath | cmd/smashwords-downloader/epubconvert.py:154 | `content.split("#")[0]` (definition; properties in the rows around it) |
| Paths.FragmentDropped | cmd/smashwords-downloader/epubconvert.py:154 | `file#fragment` names `file` |
| Paths.SplitLines | cmd/smashwords-downloader/epubconvert.py:159-162 | three newline-free lines, each ended by a newline, split into themselves and a final "" |
| Epub2Txt.Decimal | cmd/smashwords-downloader/epubconvert.py:161 | `%d` of a natural number is non-empty, all digits, and has no leading zero unless it is 0 |
| Epub2Txt.DecimalRoundTrip | cmd/smashwords-downloader/epubconvert.py:161 | the digits written read back as the number |
| Epub2Txt.Stars | cmd/smashwords-downloader/epubconvert.py:159 | `"*" * n` is n stars |
| Epub2Txt.EntryPieces | cmd/smashwords-downloader/epubconvert.py:154-162 | an entry gives three strings exactly when it has a content, its chapter exists and it has a text; otherwise, in Python's evaluation order, AttributeError when the content is missing, then KeyError for a missing chapter, then TypeError when the text is missing |
| Epub2Txt.ReadXml | cmd/smashwords-downloader/epubconvert.py:143-148 | a read fails exactly when the entry is missing, and then with a KeyError that names the path |
| Epub2Txt.Convert | cmd/smashwords-downloader/epubconvert.py:139-166 | the method's result is `ConvertSpec`'s: container → rootfile → package → `ops` + ncx → outline → entries |
| Epub2Txt.AssembleEntries | cmd/smashwords-downloader/epubconvert.py:151-166 | the loop returns the joined pieces of all entries, or the first entry's exception |
| Epub2Txt.Pieces | cmd/smashwords-downloader/epubconvert.py:151-162 | the `content` list after the loop over `toc`, or the exception of the first entry that raises (properties in the Pieces rows below) |
| Epub2Txt.Locate | cmd/smashwords-downloader/epubconvert.py:141-148 | the reads and parses before the loop: container, rootfile, package, `ops` + ncx, outline; the first exception stops it |
| Epub2Txt.ConvertSpec | cmd/smashwords-downloader/epubconvert.py:139-166 | `convert()`: `''.join(content)` and the title, or the first exception |
| Epub2Txt.PiecesSucceedIff | cmd/smashwords-downloader/epubconvert.py:152-162 | the loop completes exactly when every entry does |
| Epub2Txt.PiecesInOrder | cmd/smashwords-downloader/epubconvert.py:152-162 | entry i contributes strings 3i, 3i+1 and 3i+2 of `content`, in outline order |
| Epub2Txt.PiecesFirstError | cmd/smashwords-downloader/epubconvert.py:152-162 | the exception raised is that of the first entry that fails |
| Epub2Txt.PiecesStop | cmd/smashwords-downloader/epubconvert.py:152-162 | an entry that raises ends the loop with its exception |
| Epub2Txt.PiecesAppend | cmd/smashwords-downloader/epubconvert.py:152-162 | looping over a prefix and then the rest is looping over the whole outline |
| Epub2Txt.OutputGrowsByEntry | cmd/smashwords-downloader/epubconvert.py:159-166 | each entry adds its own block after the text of the entries before it |
| Epub2Txt.MarkerLevel | cmd/smashwords-downloader/epubconvert.py:161 | the fold marker is the title, "{{{", then digits that read back as the level + 1 |
| Epub2Txt.EntryLines | cmd/smashwords-downloader/epubconvert.py:159-162 | with newline-free text and chapter, an entry's block is the lines `*…* text`, `text{{{n` and the chapter, ending in a newline |
| Epub2Txt.MissingContainerRaises | cmd/smashwords-downloader/epubconvert.py:142-143 | without `META-INF/container.xml`, `convert` raises KeyError and reads nothing else |

## Left out

- Scraping and downloading are not modelled: colly collectors, HTTP, file creation, flags, goroutines. This is network, file I/O and concurrency.
- The file part of `ConvertEpubGo` is not modelled: directory listing, `epub.OpenReader`, writing, removing the source and the characters-per-second report. This is I/O and floating point. Only the two string expressions at `main.go:233` and `main.go:254` are modelled.
- The `golang.org/x/net/html` tokenizer and `atom.Lookup` are replaced by the `Token` datatype, an `Atom` enumeration, and attribute keys compared as strings.
- termbox attribute values are sets of flags rather than numbers; `ColorDefault` is the empty set. Real termbox colours are small integers that collide when OR'd: `i` inside `h2` gives 4 OR 5 = 5, which is blue, where the model has {ColorYellow, ColorBlue}. `fg` never reaches the text output.
- Scan.Words: does not model `bufio.ScanWords`'s 64 KiB token limit (an over-long token is an error there) or invalid UTF-8 handling. Separators are its `isSpace` rune set.
- The `img` `src` manifest scan is a no-op, because its loop body only breaks. Its `items` list is kept in the class but read by nothing.
- In the `main.go` copy, the `runes` slice and the final last-rune test of `appendText` have no effect and are not modelled. `parse` ignores its `io.Reader` argument, and so does the model.
- Walker.ParseText: `strings.Builder` is a string, and passing it by value is not modelled: the caller's builder contents are the starting text. In Go, a builder that was already written to and is then copied panics on its first `WriteString` (its copy check). So with a non-empty builder, a walk that keeps any text would panic, where the model appends to it. The only caller passes an empty builder (`main.go:230-249`).
- Epub2Txt.ReadXml: a missing archive entry raises `KeyError(path)` in the model. Python 3's `ZipFile.read` raises a KeyError whose argument is the message "There is no item named '<path>' in the archive", with the path written as `repr` shows it. The model keeps only the path. The same holds for the chapter reads in `Epub2Txt.EntryPieces` and for `Epub2Txt.MissingContainerRaises`.
- Walker.Parser.Parse: the panic on an unmatched end tag is the outcome `Panicked`. A real panic ends the whole process, which is out of scope.
- `zipfile`, expat and `html2text` are not modelled. An XML entry is its handler-call sequence, and a malformed document (`ExpatError`) is not represented. A chapter is given as the text `html2text` makes of it, so a `UnicodeDecodeError` in `html.decode` is not represented either.
- `urllib.unquote` is an uninterpreted function parameter.
- `NavPoint` objects are shared between `stack`, `toc` and `currentNP` in Python. The model refers to them by their index in `toc`, which gives the same aliasing. The `playOrder` attribute is stored but never used.
- The `print` calls in `convert` and the `__main__` block of `epubconvert.py` are not modelled. That block covers argument handling, directory listing, existence checks, writing, deleting and timing.
