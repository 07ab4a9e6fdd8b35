/**
 The command router of `on_message`: one decision per inbound message. The
 bot's own messages and messages that do not start with `!puzzles` get no
 reply; otherwise the second whitespace-separated word, with its leading `!`
 removed, picks a handler from the command table, and anything else (or no
 second word) gets the help message. The `tagged` handler lists the known
 tags when no tag is given, and otherwise asks for the puzzles carrying the
 given tags, an underscore in a word standing for a space.
 */
module Router {
  import opened Optional
  import opened Strings

  /** An inbound chat message: who wrote it and what it says. */
  datatype Message = Message(author: string, content: string)

  /** The response handlers of the command table. */
  datatype Handler = SendUnsolved | SendSolved | SendStuck | SendTagged

  /** What the bot does with one message. */
  datatype Reply =
    | Ignore                       // no reply at all
    | Unsolved                     // puzzles being solved or pending
    | Solved                       // solved puzzles
    | Stuck                        // stuck puzzles or in extraction
    | ListTags                     // the tag listing with its usage hint
    | Tagged(tags: seq<string>)    // puzzles carrying any of these tags
    | Help                         // the help message

  const Prefix: string := "!puzzles"

  /** The command table, in its declaration order. */
  const Commands: seq<(string, Handler)> :=
    [("unsolved", SendUnsolved), ("solved", SendSolved), ("stuck", SendStuck), ("tagged", SendTagged)]

  /** The command names, in table order. */
  function CommandNames(): (names: seq<string>)
    ensures |names| == |Commands|
    ensures forall i :: 0 <= i < |Commands| ==> names[i] == Commands[i].0
  {
    seq(|Commands|, i requires 0 <= i < |Commands| => Commands[i].0)
  }

  /** The handler a table entry gives for `name`, if any. */
  function LookupIn(table: seq<(string, Handler)>, name: string): (h: Option<Handler>)
    ensures h.None? <==> forall i :: 0 <= i < |table| ==> table[i].0 != name
    ensures h.Some? ==> exists i :: 0 <= i < |table| && table[i] == (name, h.value)
  {
    if table == [] then None
    else if table[0].0 == name then Some(table[0].1)
    else LookupIn(table[1..], name)
  }

  /** `COMMANDS.get(command)`; `None` means the help handler. */
  function Lookup(command: Option<string>): Option<Handler>
  {
    if command.None? then None else LookupIn(Commands, command.value)
  }

  /** The tag names asked for: every given word, underscores made spaces. */
  function TagNames(words: seq<string>): (tags: seq<string>)
    ensures |tags| == |words|
    ensures forall i :: 0 <= i < |words| ==> tags[i] == Replace(words[i], '_', ' ')
  {
    if words == [] then [] else [Replace(words[0], '_', ' ')] + TagNames(words[1..])
  }

  /** `send_puzzles_tagged`: fewer than three words list the tags. */
  function TaggedReply(content: string): (reply: Reply)
    ensures reply == ListTags <==> |Split(content)| < 3
    ensures reply.ListTags? || reply.Tagged?
    ensures reply.Tagged? ==> |reply.tags| == |Split(content)| - 2
    ensures reply.Tagged? ==> reply.tags == TagNames(Split(content)[2..])
  {
    var tokens := Split(content);
    if |tokens| < 3 then ListTags else Tagged(TagNames(tokens[2..]))
  }

  /** The command word of a tokenised message: its second word, leading `!`
      removed; `None` when there is no second word. */
  function CommandWord(tokens: seq<string>): (command: Option<string>)
    ensures command.None? <==> |tokens| < 2
    ensures command.Some? ==> command.value == [] || command.value[0] != '!'
  {
    if |tokens| > 1 then Some(LStrip(tokens[1], '!')) else None
  }

  /** Running the handler looked up (`None`: the help handler). */
  function Handle(handler: Option<Handler>, content: string): Reply
  {
    match handler
    case None => Help
    case Some(SendUnsolved) => Unsolved
    case Some(SendSolved) => Solved
    case Some(SendStuck) => Stuck
    case Some(SendTagged) => TaggedReply(content)
  }

  /** `on_message`, for a bot logged in as `botUser`. */
  function Route(botUser: string, message: Message): (reply: Reply)
    ensures reply == Ignore <==> message.author == botUser || !StartsWith(message.content, Prefix)
  {
    if message.author == botUser then Ignore
    else if !StartsWith(message.content, Prefix) then Ignore
    else Handle(Lookup(CommandWord(Split(message.content))), message.content)
  }

  /** The table gives each command its handler, and nothing for any other
      word. */
  lemma LookupTable(name: string)
    ensures name == "unsolved" ==> Lookup(Some(name)) == Some(SendUnsolved)
    ensures name == "solved" ==> Lookup(Some(name)) == Some(SendSolved)
    ensures name == "stuck" ==> Lookup(Some(name)) == Some(SendStuck)
    ensures name == "tagged" ==> Lookup(Some(name)) == Some(SendTagged)
    ensures name !in CommandNames() <==> Lookup(Some(name)) == None
  {
    var names := CommandNames();
    assert names == ["unsolved", "solved", "stuck", "tagged"];
    if name !in names {
      assert forall i :: 0 <= i < |Commands| ==> Commands[i].0 != name;
    } else {
      var i :| 0 <= i < |names| && names[i] == name;
      assert Commands[i].0 == name;
    }
  }

  lemma PrefixIsToken()
    ensures IsToken(Prefix)
  {
  }

  lemma CommandTokens(first: string, word: string, args: seq<string>)
    requires IsToken(first) && IsToken(word) && forall k :: 0 <= k < |args| ==> IsToken(args[k])
    ensures var tokens := [first, word] + args;
      forall k :: 0 <= k < |tokens| ==> IsToken(tokens[k])
  {
  }

  /** A message made of a first word that starts with the prefix, a command
      word and argument words, separated by single spaces, starts with the
      prefix and splits back into those words. */
  lemma CommandMessage(first: string, word: string, args: seq<string>)
    requires IsToken(first) && StartsWith(first, Prefix)
    requires IsToken(word) && forall k :: 0 <= k < |args| ==> IsToken(args[k])
    ensures var content := Join([first, word] + args, " ");
      StartsWith(content, Prefix) && Split(content) == [first, word] + args
  {
    var tokens := [first, word] + args;
    CommandTokens(first, word, args);
    SplitJoin(tokens);
    JoinStartsWithFirst(tokens);
    var content := Join(tokens, " ");
    assert content[..|Prefix|] == content[..|first|][..|Prefix|];
  }

  /** A message from someone else that starts with the prefix goes to the
      handler its command word selects. */
  lemma RouteDispatches(botUser: string, message: Message)
    requires message.author != botUser && StartsWith(message.content, Prefix)
    ensures Route(botUser, message) == Handle(Lookup(CommandWord(Split(message.content))), message.content)
  {
  }

  /** The handler a command name selects, and what it replies. */
  lemma HandleByName(command: string, content: string)
    ensures
      var reply := Handle(Lookup(Some(command)), content);
      && (command == "unsolved" ==> reply == Unsolved)
      && (command == "solved" ==> reply == Solved)
      && (command == "stuck" ==> reply == Stuck)
      && (command == "tagged" ==> reply == TaggedReply(content))
      && (command !in CommandNames() ==> reply == Help)
  {
    LookupTable(command);
  }

  /** A message from someone else that starts with the prefix is routed by
      its second word with leading `!` removed: the four commands reach their
      handlers, any other word the help message. The words after it matter
      only to `tagged`: with none it lists the tags, otherwise they are the
      tags asked for. */
  lemma RouteCommandWord(botUser: string, message: Message)
    requires message.author != botUser && StartsWith(message.content, Prefix)
    requires |Split(message.content)| >= 2
    ensures
      var words := Split(message.content);
      var command := LStrip(words[1], '!');
      var reply := Route(botUser, message);
      && (command == "unsolved" ==> reply == Unsolved)
      && (command == "solved" ==> reply == Solved)
      && (command == "stuck" ==> reply == Stuck)
      && (command == "tagged" ==> reply == if |words| == 2 then ListTags else Tagged(TagNames(words[2..])))
      && (command !in CommandNames() ==> reply == Help)
  {
    var words := Split(message.content);
    RouteDispatches(botUser, message);
    assert CommandWord(words) == Some(LStrip(words[1], '!'));
    HandleByName(LStrip(words[1], '!'), message.content);
  }

  /** The prefix with no second word gets the help message. */
  lemma RoutePrefixAlone(botUser: string, author: string, content: string)
    requires author != botUser && StartsWith(content, Prefix)
    requires |Split(content)| < 2
    ensures Route(botUser, Message(author, content)) == Help
  {
  }

  /** Every tag asked for is a whole word of the message with each
      underscore turned into a space, so no tag holds an underscore, and
      none is empty. */
  lemma TagsFromWords(botUser: string, message: Message)
    requires Route(botUser, message).Tagged?
    ensures var tokens := Split(message.content);
      var tags := Route(botUser, message).tags;
      && |tokens| >= 3 && |tags| == |tokens| - 2
      && tags == TagNames(tokens[2..])
      && forall i :: 0 <= i < |tags| ==>
           |tags[i]| == |tokens[i + 2]| > 0 && forall j :: 0 <= j < |tags[i]| ==> tags[i][j] != '_'
  {
    var tokens := Split(message.content);
    assert Route(botUser, message) == Handle(Lookup(CommandWord(tokens)), message.content);
    assert Route(botUser, message) == TaggedReply(message.content);
  }

  /** The help line: every command of the table, prefixed and quoted as
      code, in table order. */
  function HelpText(): (text: string)
  {
    Join(seq(|Commands|, i requires 0 <= i < |Commands| => "`" + "!puzzles " + Commands[i].0 + "`"), ", ")
  }

  const HelpTitle: string := "Cardi-P"
  const HelpDescription: string := "Ahoy mateys, puzzle bot here!"

  /** Joining four parts puts the separator between each neighbouring pair. */
  lemma JoinFour(a: string, b: string, c: string, d: string, sep: string)
    ensures Join([a, b, c, d], sep) == a + sep + (b + sep + (c + sep + d))
  {
    assert [a, b, c, d][1..] == [b, c, d] && [b, c, d][1..] == [c, d] && [c, d][1..] == [d];
    assert Join([c, d], sep) == c + sep + d;
    assert Join([b, c, d], sep) == b + sep + Join([c, d], sep);
    assert Join([a, b, c, d], sep) == a + sep + Join([b, c, d], sep);
  }

  /** The help line lists the four commands, in table order, each quoted
      as code and separated by a comma and a space. */
  lemma HelpTextLists()
    ensures HelpText() == "`!puzzles unsolved`" + ", " + ("`!puzzles solved`" + ", " + ("`!puzzles stuck`" + ", " + "`!puzzles tagged`"))
  {
    var entries := seq(|Commands|, i requires 0 <= i < |Commands| => "`" + "!puzzles " + Commands[i].0 + "`");
    assert entries[0] == "`!puzzles unsolved`";
    assert entries[1] == "`!puzzles solved`";
    assert entries[2] == "`!puzzles stuck`";
    assert entries[3] == "`!puzzles tagged`";
    assert entries == ["`!puzzles unsolved`", "`!puzzles solved`", "`!puzzles stuck`", "`!puzzles tagged`"];
    JoinFour("`!puzzles unsolved`", "`!puzzles solved`", "`!puzzles stuck`", "`!puzzles tagged`", ", ");
  }

  /** Every command the help message advertises is one the router accepts:
      sent as it is written there, it reaches its own handler (`tagged`
      with no tag lists the tags) and never the help message. */
  lemma AdvertisedCommandsRoute(botUser: string, author: string, i: nat)
    requires author != botUser && i < |Commands|
    ensures
      var reply := Route(botUser, Message(author, "!puzzles " + Commands[i].0));
      reply == [Unsolved, Solved, Stuck, ListTags][i]
  {
    var word := Commands[i].0;
    assert IsToken(word) by {
      assert word in ["unsolved", "solved", "stuck", "tagged"];
    }
    PrefixIsToken();
    CommandMessage(Prefix, word, []);
    assert [Prefix, word] + [] == [Prefix, word];
    assert Join([Prefix, word], " ") == "!puzzles " + word;
    assert LStrip(word, '!') == word;
    RouteCommandWord(botUser, Message(author, "!puzzles " + word));
  }

  /** `!puzzles tagged` followed by words: with no word the tags are
      listed, otherwise each word names a tag, underscores read as spaces. */
  lemma TaggedCommand(botUser: string, author: string, args: seq<string>)
    requires author != botUser
    requires forall k :: 0 <= k < |args| ==> IsToken(args[k])
    ensures
      var content := Join([Prefix, "tagged"] + args, " ");
      Route(botUser, Message(author, content)) == if args == [] then ListTags else Tagged(TagNames(args))
  {
    PrefixIsToken();
    TaggedIsToken();
    CommandMessage(Prefix, "tagged", args);
    TaggedWords(botUser, Message(author, Join([Prefix, "tagged"] + args, " ")), args);
  }

  lemma TaggedIsToken()
    ensures IsToken("tagged")
  {
  }

  lemma TaggedWords(botUser: string, message: Message, args: seq<string>)
    requires message.author != botUser && StartsWith(message.content, Prefix)
    requires Split(message.content) == [Prefix, "tagged"] + args
    ensures Route(botUser, message) == if args == [] then ListTags else Tagged(TagNames(args))
  {
    assert LStrip("tagged", '!') == "tagged";
    RouteCommandWord(botUser, message);
    assert ([Prefix, "tagged"] + args)[1] == "tagged";
    assert ([Prefix, "tagged"] + args)[2..] == args;
  }

  /** The prefix is matched as the start of the text, not as a whole word:
      a first word that merely begins with `!puzzles` (say `!puzzlesfoo`)
      is taken as the prefix, and the word after it still selects the
      command. */
  lemma PrefixInsideFirstWord(botUser: string, author: string, first: string, word: string)
    requires author != botUser
    requires IsToken(first) && StartsWith(first, Prefix) && IsToken(word)
    ensures
      var reply := Route(botUser, Message(author, Join([first, word], " ")));
      && (LStrip(word, '!') == "unsolved" ==> reply == Unsolved)
      && (LStrip(word, '!') == "solved" ==> reply == Solved)
      && (LStrip(word, '!') == "stuck" ==> reply == Stuck)
      && (LStrip(word, '!') == "tagged" ==> reply == ListTags)
      && (LStrip(word, '!') !in CommandNames() ==> reply == Help)
  {
    CommandMessage(first, word, []);
    assert [first, word] + [] == [first, word];
    RouteCommandWord(botUser, Message(author, Join([first, word], " ")));
  }

  /** An underscore in a tag word stands for a space. */
  lemma UnderscoreIsSpace()
    ensures TagNames(["foo_bar"]) == ["foo bar"]
  {
    assert Replace("foo_bar", '_', ' ') == "foo bar";
  }
}
