/**
 The line formatter of `send_puzzles`: one puzzle record becomes a
 (title, body) display line. A record is taken as the plain values the bot
 reads from it; an empty string stands for a text field that is `None` or
 empty, since Python's `if` treats both as false.
 */
module Formatter {
  import opened Optional
  import opened Strings

  /** The chat room attached to a puzzle; only its text-channel link is read. */
  datatype ChatRoom = ChatRoom(textChannelUrl: string)

  /** The fields of one puzzle record that the formatter reads. `solved` is
      the result of `is_solved()`; `sheet` is only tested for presence, the
      sheet link itself is built from `id`. */
  datatype PuzzleRecord = PuzzleRecord(
    id: nat,
    name: string,
    solved: bool,
    answer: string,
    url: string,
    sheet: string,
    chatRoom: Option<ChatRoom>)

  /** One (title, body) pair: a field's name and value on an output page. */
  datatype DisplayLine = DisplayLine(title: string, body: string)

  const SheetViewerBase: string := "https://smallboard.app/puzzles/s/"
  const NoData: string := "*no data*"

  /** The title: the name, prefixed by the bracketed answer once solved. */
  function LineTitle(p: PuzzleRecord): (title: string)
    ensures p.solved ==> title == "[" + p.answer + "] " + p.name
    ensures !p.solved ==> title == p.name
  {
    (if p.solved then "[" + p.answer + "] " else "") + p.name
  }

  function PuzzleLink(url: string): string
  {
    "[Puzzle](" + url + ") "
  }

  function SheetLink(id: nat): string
  {
    "([sheet](" + SheetViewerBase + DecimalString(id) + "))"
  }

  function ChatLink(url: string): string
  {
    "([chat](" + url + "))"
  }

  /** The puzzle has a chat room and that room's link is non-empty. */
  predicate HasChat(p: PuzzleRecord)
  {
    p.chatRoom.Some? && p.chatRoom.value.textChannelUrl != ""
  }

  /** None of the three links exists. */
  predicate NoLinks(p: PuzzleRecord)
  {
    p.url == "" && p.sheet == "" && !HasChat(p)
  }

  /** The links that exist, concatenated in the fixed order puzzle, sheet,
      chat (possibly empty). */
  function Links(p: PuzzleRecord): (links: string)
    ensures links == [] <==> NoLinks(p)
  {
    (if p.url != "" then PuzzleLink(p.url) else "")
    + (if p.sheet != "" then SheetLink(p.id) else "")
    + (if HasChat(p) then ChatLink(p.chatRoom.value.textChannelUrl) else "")
  }

  /** The body: the links that exist, or the placeholder when there is none. */
  function LineBody(p: PuzzleRecord): (body: string)
    ensures body != []
    ensures !NoLinks(p) ==> body == Links(p)
  {
    var links := Links(p);
    if links == [] then NoData else links
  }

  /** One record's (title, body) pair. */
  function FormatLine(p: PuzzleRecord): (line: DisplayLine)
    ensures line.body != [] && (line.body == NoData <==> NoLinks(p))
  {
    BodyIsPlaceholderIff(p);
    DisplayLine(LineTitle(p), LineBody(p))
  }

  /** The body is the placeholder exactly when no link exists: no link
      text can be mistaken for it. */
  lemma BodyIsPlaceholderIff(p: PuzzleRecord)
    ensures LineBody(p) == NoData <==> NoLinks(p)
  {
    if !NoLinks(p) {
      var body := LineBody(p);
      assert body[0] == '[' || body[0] == '(';
      assert NoData[0] == '*';
    }
  }

  /** The first link in the body says which links are absent before it: a
      body opens with the puzzle link iff the puzzle has a URL, with the sheet
      link iff it has a sheet but no URL, with the chat link iff the chat link
      is the only one. */
  lemma BodyOpensWithFirstLink(p: PuzzleRecord)
    ensures StartsWith(LineBody(p), "[Puzzle](") <==> p.url != ""
    ensures StartsWith(LineBody(p), "([sheet](") <==> p.url == "" && p.sheet != ""
    ensures StartsWith(LineBody(p), "([chat](") <==> p.url == "" && p.sheet == "" && HasChat(p)
  {
    BodyLeadingChars(p);
    var b := LineBody(p);
    assert StartsWith(b, "[Puzzle](") ==> b[0] == '[';
    assert StartsWith(b, "([sheet](") ==> b[0] == '(' && b[2] == 's';
    assert StartsWith(b, "([chat](") ==> b[0] == '(' && b[2] == 'c';
    if p.url != "" {
      OpensWithPuzzleLink(p);
    } else if p.sheet != "" {
      OpensWithSheetLink(p);
    } else if HasChat(p) {
      OpensWithChatLink(p);
    }
  }

  lemma OpensWithPuzzleLink(p: PuzzleRecord)
    requires p.url != ""
    ensures StartsWith(LineBody(p), "[Puzzle](")
  {
    assert LineBody(p)[..9] == "[Puzzle](";
  }

  lemma OpensWithSheetLink(p: PuzzleRecord)
    requires p.url == "" && p.sheet != ""
    ensures StartsWith(LineBody(p), "([sheet](")
  {
    assert LineBody(p)[..9] == "([sheet](";
  }

  lemma OpensWithChatLink(p: PuzzleRecord)
    requires p.url == "" && p.sheet == "" && HasChat(p)
    ensures StartsWith(LineBody(p), "([chat](")
  {
    assert LineBody(p)[..8] == "([chat](";
  }

  /** The first and third characters of a body tell its first link apart. */
  lemma BodyLeadingChars(p: PuzzleRecord)
    ensures |LineBody(p)| >= 3
    ensures LineBody(p)[0] == if p.url != "" then '[' else if NoLinks(p) then '*' else '('
    ensures p.url == "" && !NoLinks(p) ==> LineBody(p)[2] == if p.sheet != "" then 's' else 'c'
  {
  }

  /** Where the links sit in the body: the puzzle link first, the sheet link
      right after it, the chat link last. */
  lemma LinksInOrder(p: PuzzleRecord)
    ensures p.url != "" ==> StartsWith(LineBody(p), PuzzleLink(p.url))
    ensures p.sheet != "" ==>
      var at := if p.url != "" then |PuzzleLink(p.url)| else 0;
      at + |SheetLink(p.id)| <= |LineBody(p)| && LineBody(p)[at..at + |SheetLink(p.id)|] == SheetLink(p.id)
    ensures HasChat(p) ==>
      var chat := ChatLink(p.chatRoom.value.textChannelUrl);
      |chat| <= |LineBody(p)| && LineBody(p)[|LineBody(p)| - |chat|..] == chat
  {
    var u := if p.url != "" then PuzzleLink(p.url) else "";
    var s := if p.sheet != "" then SheetLink(p.id) else "";
    var c := if HasChat(p) then ChatLink(p.chatRoom.value.textChannelUrl) else "";
    assert Links(p) == u + s + c;
    if !NoLinks(p) {
      assert (u + s + c)[..|u|] == u;
      assert (u + s + c)[|u|..|u| + |s|] == s;
      assert (u + s + c)[|u + s|..] == c;
    }
  }

  /** The sheet link names the puzzle's id: two puzzles with sheets get the
      same sheet link only if they have the same id. */
  lemma SheetLinkIdentifiesPuzzle(a: nat, b: nat)
    requires SheetLink(a) == SheetLink(b)
    ensures a == b
  {
    var prefix := "([sheet](" + SheetViewerBase;
    assert SheetLink(a) == prefix + (DecimalString(a) + "))");
    assert SheetLink(b) == prefix + (DecimalString(b) + "))");
    assert DecimalString(a) + "))" == SheetLink(a)[|prefix|..];
    var da, db := DecimalString(a), DecimalString(b);
    assert |da| == |db|;
    assert da == (da + "))")[..|da|];
    assert db == (db + "))")[..|db|];
    DecimalStringInjective(a, b);
  }

  /** Formatting the records one by one, in the order given. */
  function FormatAll(puzzles: seq<PuzzleRecord>): (lines: seq<DisplayLine>)
    ensures |lines| == |puzzles|
    ensures forall k :: 0 <= k < |puzzles| ==> lines[k] == FormatLine(puzzles[k])
  {
    if puzzles == [] then [] else [FormatLine(puzzles[0])] + FormatAll(puzzles[1..])
  }
}
