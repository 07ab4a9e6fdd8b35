# Puzzle bot: formatter, packer and command router

A Dafny model of the core of the Discord bot of a puzzle-hunt dashboard
(`chat/management/commands/rundiscordbot.py`). The model has three parts.

- **Line formatter** (`formatter.dfy`). It turns one puzzle record into a
  (title, body) display line. The title is the name. Once the puzzle is solved,
  the bracketed answer comes before it. The body is the puzzle, sheet and chat
  links that exist, in that order, or `*no data*` when none exists.
- **Sort and packer** (`ordering.dfy`, `packer.dfy`).
  - `list.sort()` on (title, body) tuples is modelled by a lexicographic order
    on lines. A reference insertion sort is proved sorted and a permutation.
    The sorted arrangement of a multiset is unique, so any correct sort gives
    the same list.
  - The packing loop is an imperative method. It sends each page as the loop
    does: a line goes on the current page unless its length plus the page's
    length reaches 6000, or the page already holds 25 fields.
  - Its contract, `Paginated`, says:
    - the pages' fields, in order, are exactly the lines;
    - every page carries the title and respects the limits;
    - the first page is empty only for no input or an oversized first line;
    - every later page starts with the line that did not fit on the page
      before.
  - `Paginated` leaves no freedom: exactly one page sequence satisfies it.
- **Command router** (`router.dfy`). `on_message` is modelled as a function
  from the bot's own identity and a message to a `Reply`.
  - The bot's own messages and text not starting with `!puzzles` get no reply.
  - Otherwise the second word, with leading `!` removed, looks up the command
    table. A missing or unknown word gets the help message.
  - `tagged` with no further word lists the tags. Otherwise the further words
    are the tags, with each underscore read as a space.

`strings.dfy` models the Python string operations the bot relies on:
- `str.split()`, with Python's whitespace set;
- `startswith`, `lstrip` and `replace`;
- `join`;
- `str()` of a non-negative integer.

It proves that splitting a space-joined line of words gives the words back.
`option.dfy` holds the `Option` type.

Modelling conventions:
- A text field that is `None` or empty is the empty string. Python's `if`
  treats both as false.
- `is_solved()` is a boolean field of the record.
- `len(embed)` is the length of the title plus the lengths of every field's
  name and value. The packed embeds have nothing else set.
- Sending a page is modelled as appending it to the returned sequence.

## Model

| member | source | states |
|---|---|---|
| Formatter.LineTitle | chat/management/commands/rundiscordbot.py:69-72 | a solved puzzle's title is `[answer] ` followed by the name; an unsolved puzzle's title is the name alone |
| Formatter.Links | chat/management/commands/rundiscordbot.py:74-80 | the concatenated links are empty exactly when the puzzle has no URL, no sheet and no chat room with a non-empty link |
| Formatter.LineBody | chat/management/commands/rundiscordbot.py:74-82 | the body is never empty, and is the links whenever any link exists |
| Formatter.BodyIsPlaceholderIff | chat/management/commands/rundiscordbot.py:81-82 | the body is `*no data*` if and only if none of the three links exists |
| Formatter.BodyOpensWithFirstLink | chat/management/commands/rundiscordbot.py:75-80 | the body opens with the puzzle link iff there is a URL, with the sheet link iff there is a sheet but no URL, and with the chat link iff the chat link is the only one |
| Formatter.LinksInOrder | chat/management/commands/rundiscordbot.py:75-80 | the puzzle link comes first, the sheet link right after it, and the chat link last |
| Formatter.SheetLinkIdentifiesPuzzle | chat/management/commands/rundiscordbot.py:78 | two puzzles get the same sheet link only if they have the same id |
| Formatter.FormatAll | chat/management/commands/rundiscordbot.py:68-84 | one display line per record, in record order |
| Strings.DecimalRoundTrip | chat/management/commands/rundiscordbot.py:78 | reading back the decimal text of an id gives the id |
| Ordering.StrLeqTransitive | chat/management/commands/rundiscordbot.py:86 | the order on strings is transitive |
| Ordering.StrLeqAntisymmetric | chat/management/commands/rundiscordbot.py:86 | two strings each at most the other are equal |
| Ordering.StrLeqTotal | chat/management/commands/rundiscordbot.py:86 | any two strings are comparable |
| Ordering.LineLeqTransitive | chat/management/commands/rundiscordbot.py:86 | the (title, body) order is transitive |
| Ordering.LineLeqTotal | chat/management/commands/rundiscordbot.py:86 | any two lines are comparable |
| Ordering.SortLines | chat/management/commands/rundiscordbot.py:86 | the sorted lines are in ascending (title, body) order and are a permutation of the input |
| Ordering.SortedUnique | chat/management/commands/rundiscordbot.py:86 | two sorted lists holding the same lines are equal, so the result does not depend on the sorting algorithm |
| Ordering.SortIgnoresInputOrder | chat/management/commands/rundiscordbot.py:86 | the same records in any order sort to the same list |
| Ordering.TiesOrderedByBody | chat/management/commands/rundiscordbot.py:86 | two sorted lines with the same title are ordered by their body |
| Packer.Pack | chat/management/commands/rundiscordbot.py:93-103 | the pages sent satisfy `Paginated`: they hold exactly the lines in order, each carries the title and respects the limits, the first is empty only for no input or an oversized first line, and each later page starts with the line that did not fit on the one before |
| Packer.PaginationUnique | chat/management/commands/rundiscordbot.py:95-103 | at most one page sequence satisfies `Paginated` for given lines, so the paging is fully determined |
| Packer.EmptyInputOnePage | chat/management/commands/rundiscordbot.py:93-103 | no lines give exactly one page with the title and no field |
| Packer.PageCountLowerBound | chat/management/commands/rundiscordbot.py:97-102 | at most 25 lines per page, so n lines need at least n/25 pages |
| Packer.OversizedLineAlone | chat/management/commands/rundiscordbot.py:96-101 | a line that reaches the length limit with the title alone is on a page of its own |
| Packer.LongerPageFits | chat/management/commands/rundiscordbot.py:97 | if the first n lines fit on one page, no page break is forced after fewer of them |
| Packer.SendPuzzles | chat/management/commands/rundiscordbot.py:65-103 | the pages paginate the sorted formatted lines; their fields are sorted and are a permutation of the formatted records |
| Router.Route | chat/management/commands/rundiscordbot.py:129-138 | a message gets no reply iff it is the bot's own or does not start with `!puzzles` |
| Router.LookupIn | chat/management/commands/rundiscordbot.py:137 | the lookup fails iff no table entry has the name, and a found handler is that name's entry |
| Router.LookupTable | chat/management/commands/rundiscordbot.py:115-120 | each of the four names selects its handler; any other word selects nothing, which is the help handler |
| Router.RouteCommandWord | chat/management/commands/rundiscordbot.py:135-137 | the second word, leading `!` removed, selects unsolved, solved, stuck or tagged, and any other word gives help; `tagged` with two words lists the tags, otherwise the further words are the tags |
| Router.RoutePrefixAlone | chat/management/commands/rundiscordbot.py:136-137 | a message with the prefix and no second word gets the help message |
| Router.TagNames | chat/management/commands/rundiscordbot.py:47 | one tag per word, each the word with every underscore replaced by a space |
| Router.TagsFromWords | chat/management/commands/rundiscordbot.py:43-47 | a tag request comes from at least three words; the tags are exactly the words from the third on with every underscore made a space (`Router.TagNames`), so none is empty and none holds an underscore |
| Router.TaggedCommand | chat/management/commands/rundiscordbot.py:43-47 | `!puzzles tagged` alone lists the tags; followed by words, it asks for those words as tags |
| Router.UnderscoreIsSpace | chat/management/commands/rundiscordbot.py:47 | one worked example, not a general fact: the word `foo_bar` asks for the tag `foo bar` (the general rule is `Router.TagNames`) |
| Router.PrefixInsideFirstWord | chat/management/commands/rundiscordbot.py:133-137 | the prefix test is on the start of the text, so a first word such as `!puzzlesfoo` still counts as the prefix and the next word picks the command |
| Router.HelpTextLists | chat/management/commands/rundiscordbot.py:109-110 | the help line is the four commands in table order, each as `` `!puzzles <name>` ``, separated by `, ` |
| Router.AdvertisedCommandsRoute | chat/management/commands/rundiscordbot.py:109-120 | every command the help line advertises, sent as written, reaches its own handler and never the help message |
| Formatter.FormatLine | chat/management/commands/rundiscordbot.py:68-84 | one record's (title, body) pair: its body is never empty, and is `*no data*` exactly when the record has no link; the title and body themselves are stated by `Formatter.LineTitle` and `Formatter.LineBody` |
| Ordering.StrLeq | chat/management/commands/rundiscordbot.py:86 | Python's `<=` on strings, code point by code point, a proper prefix first; a predicate without a contract, whose order properties are `Ordering.StrLeqTransitive`, `Ordering.StrLeqAntisymmetric` and `Ordering.StrLeqTotal` |
| Ordering.LineLeq | chat/management/commands/rundiscordbot.py:86 | Python's `<=` on (title, body) tuples: by title, then by body; a predicate without a contract, whose properties are `Ordering.LineLeqTransitive`, `Ordering.LineLeqTotal` and `Ordering.TiesOrderedByBody` |
| Packer.EmbedLength | chat/management/commands/rundiscordbot.py:97 | `len(embed)`: the title length plus every field's name and value lengths; a function without a contract, whose limit is stated through `Packer.Pack` (pages of two or more fields stay below 6000) and `Packer.OversizedLineAlone` |
| Router.TaggedReply | chat/management/commands/rundiscordbot.py:43-47 | fewer than three words list the tags, and only then; otherwise the reply asks for one tag per word from the third on, each the word with every underscore made a space (`Router.TagNames`) |
| Router.CommandWord | chat/management/commands/rundiscordbot.py:136 | there is a command word iff the message has at least two words, and it never starts with `!` |
| Router.Lookup | chat/management/commands/rundiscordbot.py:137 | `COMMANDS.get(command)`, with no handler meaning the help handler; a function without a contract, whose result for each name is `Router.LookupTable` |
| Router.Handle | chat/management/commands/rundiscordbot.py:137-138 | running the looked-up handler, help when there is none; a function without a contract, whose replies per command name are `Router.HandleByName` |
| Router.HelpText | chat/management/commands/rundiscordbot.py:109-110 | the help field value; a function without a contract, whose text is stated by `Router.HelpTextLists` |
| Strings.Split | chat/management/commands/rundiscordbot.py:135 | every word of `split()` is non-empty and free of whitespace; that any whitespace character separates words is `Strings.SplitAtSpace`, that nothing else is lost or reordered is `Strings.SplitKeepsNonSpace`, and the round trip with `join` is `Strings.SplitJoin` |
| Strings.SplitAtSpace | chat/management/commands/rundiscordbot.py:135 | any whitespace character (tab, newline, a second space, or any other Python whitespace) separates words: splitting two texts joined by one such character gives the words of the first, then those of the second |
| Strings.StartsWith | chat/management/commands/rundiscordbot.py:133 | `startswith`: the text is at least as long as the prefix and begins with it; a predicate without a contract, used by `Router.Route` |
| Strings.Join | chat/management/commands/rundiscordbot.py:110 | `sep.join(parts)`; a function without a contract, whose inverse with `split()` is `Strings.SplitJoin` and whose start is `Strings.JoinStartsWithFirst` |
| Strings.DecimalString | chat/management/commands/rundiscordbot.py:78 | `str(id)`: non-empty, all decimal digits, no leading zero unless the id is 0; read back it gives the id (`Strings.DecimalRoundTrip`) |
| Strings.SplitJoin | chat/management/commands/rundiscordbot.py:135 | splitting words joined by single spaces gives the words back |
| Strings.SplitKeepsNonSpace | chat/management/commands/rundiscordbot.py:135 | the words of a split, glued together, are the non-whitespace characters of the text in order |
| Strings.LStrip | chat/management/commands/rundiscordbot.py:136 | the result is a suffix of the input, only `!` characters are removed, and it does not start with `!` |
| Strings.Replace | chat/management/commands/rundiscordbot.py:47 | the result has the input's length; each underscore becomes a space, and every other character is kept |

## Left out

- The database queries and status filters of the four handlers, and the tag
  lookup (lines 14-19, 24-28, 33-38, 48-54, 59). The records they return are
  the input of `Packer.SendPuzzles`. `Router.Reply` names the handler and,
  for `tagged`, the tag names.
- `Puzzle.is_solved()` and the model fields. `puzzles/models.py` is not part of
  this model, so the solved state is a boolean field of the record.
- The Discord client, embed rendering, `channel.send`, `client.run`,
  `on_ready`, `sync_to_async` and the `Command` class. These are network I/O
  and framework plumbing. Only the length sum behind `len(embed)` is kept.
- The page title for tagged puzzles, which holds Python's `repr` of the tag
  list (line 55), and the tag listing with its `repr` of tag objects
  (lines 58-62). Their text depends on `__repr__` code outside this model.
  The page title is any string given to `Packer.SendPuzzles`.
- Logging with `print` (lines 66, 85, 107, 132).
- The 1024-character limit on a field value. It appears only in a comment
  (line 91), and the code never enforces it.
- Lone surrogate code points (U+D800 to U+DFFF). A Python `str` may hold
  them, but a Dafny `char` is a Unicode scalar value, so text holding them is
  outside the model.
- Concurrency of the event loop. The handlers share no mutable state.
- An answer that is `None` on a solved puzzle would print as `None` inside the
  brackets. The model takes the answer as a string.
- Sort stability. The order compares the whole (title, body) pair, so lines
  that compare equal are identical and stability cannot be observed.
- The help message's title and description are constants
  (`Router.HelpTitle`, `Router.HelpDescription`); nothing is proved about them.
