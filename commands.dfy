/**
 * The slash-command registry of the terminal UI: commands registered under
 * their name and their aliases, the parser that turns "/name args" into a
 * lookup, and the rules of the handlers whose behaviour does not depend on
 * the UI (`/help`, `/style`, `/reset`). The remaining handlers act on the
 * application object and are represented by the handler they select.
 */
module Commands {
  import opened Wrappers
  import PyStr
  import PyDict

  /** The handler a command runs. */
  datatype Handler = Help | Clear | Todo | Style | Model | Role | Status | Config | Reset

  datatype SlashCommand = SlashCommand(name: string, description: string, handler: Handler, aliases: seq<string>, usage: string)

  /** What running an input amounts to. */
  datatype Effect =
    | NotCommand                        // `execute` returns False
    | Shown(text: string, isError: bool) // a system message, in red when it is an error
    | StyleSet(style: string)           // the output style changes, then "Output style set to: ..."
    | SessionReset                      // history and token stats cleared, then "Session reset. History cleared."
    | Delegated(handler: Handler, args: string) // a handler that acts on the application

  /** `execute`'s return value. */
  predicate Handled(e: Effect) {
    !e.NotCommand?
  }

  /** The command `register` builds: no aliases for `None`, usage "/name" for an empty usage. */
  function NewCommand(name: string, description: string, handler: Handler, aliases: Option<seq<string>>, usage: string): (r: SlashCommand)
    ensures r.name == name && r.description == description && r.handler == handler
    ensures aliases.None? ==> r.aliases == []
    ensures aliases.Some? ==> r.aliases == aliases.value
    ensures usage == "" ==> r.usage == "/" + name
    ensures usage != "" ==> r.usage == usage
  {
    SlashCommand(name, description, handler, aliases.GetOr([]), if usage == "" then "/" + name else usage)
  }

  /** The table after storing `cmd` under each of `keys` in turn. */
  function PutAll(d: PyDict.Dict<string, SlashCommand>, keys: seq<string>, cmd: SlashCommand): PyDict.Dict<string, SlashCommand> {
    if keys == [] then d else PyDict.Put(PutAll(d, keys[..|keys| - 1], cmd), keys[|keys| - 1], cmd)
  }

  /** The table after `register`: the command under its name, then under every alias. */
  function Registered(d: PyDict.Dict<string, SlashCommand>, cmd: SlashCommand): PyDict.Dict<string, SlashCommand> {
    PutAll(PyDict.Put(d, cmd.name, cmd), cmd.aliases, cmd)
  }

  lemma {:induction false} PutAllLookup(d: PyDict.Dict<string, SlashCommand>, keys: seq<string>, cmd: SlashCommand, k: string)
    ensures PyDict.Get(PutAll(d, keys, cmd), k) == if k in keys then Some(cmd) else PyDict.Get(d, k)
  {
    if keys != [] {
      var init := keys[..|keys| - 1];
      PutAllLookup(d, init, cmd, k);
      PyDict.GetPut(PutAll(d, init, cmd), keys[|keys| - 1], cmd, k);
      assert keys == init + [keys[|keys| - 1]];
    }
  }

  /** After `register`, the name and every alias lead to the new command; every other key is as before. */
  lemma {:induction false} RegisterLookup(d: PyDict.Dict<string, SlashCommand>, cmd: SlashCommand, k: string)
    ensures PyDict.Get(Registered(d, cmd), k) == if k == cmd.name || k in cmd.aliases then Some(cmd) else PyDict.Get(d, k)
  {
    PutAllLookup(PyDict.Put(d, cmd.name, cmd), cmd.aliases, cmd, k);
    PyDict.GetPut(d, cmd.name, cmd, k);
  }

  /** The table after registering each of `cmds` in turn. */
  function RegisterAll(d: PyDict.Dict<string, SlashCommand>, cmds: seq<SlashCommand>): PyDict.Dict<string, SlashCommand> {
    if cmds == [] then d else Registered(RegisterAll(d, cmds[..|cmds| - 1]), cmds[|cmds| - 1])
  }

  lemma {:induction false} RegisterAllSnoc(d: PyDict.Dict<string, SlashCommand>, cmds: seq<SlashCommand>, n: nat)
    requires n < |cmds|
    ensures RegisterAll(d, cmds[..n + 1]) == Registered(RegisterAll(d, cmds[..n]), cmds[n])
  {
    assert cmds[..n + 1][..n] == cmds[..n];
  }

  /**
   * After registering a series of commands, a key leads to the last of them
   * that answers to it, and a key none of them answers to is as before.
   */
  lemma {:induction false} RegisterAllLookup(d: PyDict.Dict<string, SlashCommand>, cmds: seq<SlashCommand>, k: string, i: int)
    requires i == -1 || (0 <= i < |cmds| && AnswersTo(cmds[i], k))
    requires forall j :: i < j < |cmds| ==> !AnswersTo(cmds[j], k)
    ensures PyDict.Get(RegisterAll(d, cmds), k) == if i == -1 then PyDict.Get(d, k) else Some(cmds[i])
  {
    if cmds != [] {
      var init := cmds[..|cmds| - 1];
      var last := cmds[|cmds| - 1];
      RegisterLookup(RegisterAll(d, init), last, k);
      if i < |cmds| - 1 {
        assert !AnswersTo(last, k);
        forall j | i < j < |init| ensures !AnswersTo(init[j], k) {
          assert init[j] == cmds[j];
        }
        RegisterAllLookup(d, init, k, i);
      }
    }
  }

  /** The commands `__init__` registers, in order. */
  const Builtins: seq<SlashCommand> := [
    SlashCommand("help", "Show available commands", Help, ["h", "?"], "/help [command]"),
    SlashCommand("clear", "Clear chat history", Clear, ["cls", "c"], "/clear"),
    SlashCommand("todo", "Toggle TODO panel visibility", Todo, ["t"], "/todo [show|hide]"),
    SlashCommand("style", "Set output style (minimal/balanced/detailed)", Style, ["s"], "/style [minimal|balanced|detailed]"),
    SlashCommand("model", "Show or switch active model", Model, ["m"], "/model [model_name]"),
    SlashCommand("role", "Show or switch active role", Role, ["r"], "/role [architect|developer|reviewer]"),
    SlashCommand("status", "Show session status and statistics", Status, ["stat"], "/status"),
    SlashCommand("config", "Open configuration modal (same as F2)", Config, ["cfg"], "/config"),
    SlashCommand("reset", "Reset conversation history", Reset, [], "/reset")
  ]

  /** Every built-in command gives its own usage text, so `register` keeps it. */
  lemma {:induction false} BuiltinUsage(i: nat)
    requires i < |Builtins|
    ensures Builtins[i].usage != ""
  {
  }

  /** The position in `Builtins` of the command that answers to `k`. */
  function Owner(k: string): (r: Option<nat>)
    ensures r.Some? ==> r.value < |Builtins|
  {
    if k == "help" || k == "h" || k == "?" then Some(0)
    else if k == "clear" || k == "cls" || k == "c" then Some(1)
    else if k == "todo" || k == "t" then Some(2)
    else if k == "style" || k == "s" then Some(3)
    else if k == "model" || k == "m" then Some(4)
    else if k == "role" || k == "r" then Some(5)
    else if k == "status" || k == "stat" then Some(6)
    else if k == "config" || k == "cfg" then Some(7)
    else if k == "reset" then Some(8)
    else None
  }

  /** Exactly one built-in command answers to each key `Owner` places, and none to any other key. */
  lemma {:induction false} OwnerAnswers(k: string, i: nat)
    requires i < |Builtins|
    ensures AnswersTo(Builtins[i], k) <==> Owner(k) == Some(i)
  {
    assert AnswersTo(Builtins[i], k) <==> k == Builtins[i].name || k in Builtins[i].aliases;
  }

  /** The built-in table: each name and alias leads to its command, and no other key is registered. */
  lemma {:induction false} BuiltinTable(k: string)
    ensures PyDict.Get(RegisterAll([], Builtins), k) == if Owner(k).Some? then Some(Builtins[Owner(k).value]) else None
  {
    forall j | 0 <= j < |Builtins| ensures AnswersTo(Builtins[j], k) <==> Owner(k) == Some(j) {
      OwnerAnswers(k, j);
    }
    if Owner(k).Some? {
      RegisterAllLookup([], Builtins, k, Owner(k).value);
    } else {
      RegisterAllLookup([], Builtins, k, -1);
    }
  }

  /** `BuiltinTable` for every key at once. */
  lemma {:induction false} BuiltinKeys()
    ensures forall k :: PyDict.Get(RegisterAll([], Builtins), k) == if Owner(k).Some? then Some(Builtins[Owner(k).value]) else None
  {
    var table := RegisterAll([], Builtins);
    forall k ensures PyDict.Get(table, k) == if Owner(k).Some? then Some(Builtins[Owner(k).value]) else None {
      BuiltinTable(k);
    }
  }

  /** `k` is one of the names a command answers to. */
  predicate AnswersTo(cmd: SlashCommand, k: string) {
    k == cmd.name || k in cmd.aliases
  }

  /** `input_text[1:].split(maxsplit=1)` read as the lower-cased command name and its arguments. */
  function ParseCommand(input: string): (r: Option<(string, string)>)
    ensures r.None? <==> !PyStr.StartsWith(input, "/") || PyStr.Split(input[1..]) == []
    ensures r.Some? ==> r.value.0 == PyStr.Lower(PyStr.Split(input[1..])[0])
    ensures r.Some? ==> PyStr.Split(r.value.1) == PyStr.Split(input[1..])[1..]
    ensures r.Some? ==>
      var t := PyStr.LStrip(input[1..]);
      r.value.1 == PyStr.LStrip(t[|PyStr.Word(t)|..])
  {
    if !PyStr.StartsWith(input, "/") then None
    else
      var parts := PyStr.SplitOnce(input[1..]);
      SplitOnceWords(input[1..]);
      if parts == [] then None
      else Some((PyStr.Lower(parts[0]), if |parts| > 1 then parts[1] else ""))
  }

  lemma {:induction false} LStripIdempotent(s: string)
    ensures PyStr.LStrip(PyStr.LStrip(s)) == PyStr.LStrip(s)
  {
    if s != [] && PyStr.IsSpace(s[0]) {
      LStripIdempotent(s[1..]);
    }
  }

  /** Splitting once yields the first word of a full split, and a rest whose words are the remaining ones. */
  lemma {:induction false} SplitOnceWords(s: string)
    ensures PyStr.SplitOnce(s) == [] <==> PyStr.Split(s) == []
    ensures PyStr.SplitOnce(s) != [] ==> PyStr.Split(s)[0] == PyStr.SplitOnce(s)[0]
    ensures PyStr.SplitOnce(s) != [] ==>
      PyStr.Split(if |PyStr.SplitOnce(s)| > 1 then PyStr.SplitOnce(s)[1] else "") == PyStr.Split(s)[1..]
  {
    if PyStr.LStrip(s) != [] {
      FirstWord(s);
      RestWords(s);
    }
  }

  /** Both splits start with the first word. */
  lemma {:induction false} FirstWord(s: string)
    requires PyStr.LStrip(s) != []
    ensures PyStr.SplitOnce(s) != [] && PyStr.Split(s) != [] && PyStr.Split(s)[0] == PyStr.SplitOnce(s)[0]
  {
  }

  /** What follows the first word splits into the remaining words. */
  lemma {:induction false} RestWords(s: string)
    requires PyStr.LStrip(s) != []
    ensures PyStr.SplitOnce(s) != [] && PyStr.Split(s) != []
    ensures PyStr.Split(if |PyStr.SplitOnce(s)| > 1 then PyStr.SplitOnce(s)[1] else "") == PyStr.Split(s)[1..]
  {
    var t := PyStr.LStrip(s);
    var w := PyStr.Word(t);
    var x := t[|w|..];
    var rest := PyStr.LStrip(x);
    var words := PyStr.Split(x);
    assert PyStr.Split(s) == [w] + words;
    assert PyStr.Split(s)[1..] == words;
    assert PyStr.SplitOnce(s) == if rest == [] then [w] else [w, rest];
    SplitLStrip(x);
    if rest == [] {
      assert PyStr.LStrip("") == "";
      assert words == [];
    }
  }

  /** Leading whitespace does not change a split. */
  lemma {:induction false} SplitLStrip(x: string)
    ensures PyStr.Split(PyStr.LStrip(x)) == PyStr.Split(x)
  {
    LStripIdempotent(x);
  }

  const StyleNames := ["minimal", "balanced", "detailed"]

  const InvalidStyleText := "Invalid style. Choose from: minimal, balanced, detailed"

  function StylesText(current: string): string {
    "**Output Styles:**\n\n  Current: `" + current + "`\n\n  Available: minimal, balanced, detailed\n\nUsage: `/style <style_name>`"
  }

  /** `/style`: an empty argument shows the styles, a valid name switches, anything else is refused. */
  function StyleCommand(args: string, current: string): (r: Effect)
    ensures r.StyleSet? <==> PyStr.Lower(PyStr.Strip(args)) in StyleNames
    ensures r.StyleSet? ==> r.style == PyStr.Lower(PyStr.Strip(args)) && r.style in StyleNames
    ensures PyStr.Lower(PyStr.Strip(args)) == "" ==> r == Shown(StylesText(current), false)
    ensures !r.StyleSet? && PyStr.Lower(PyStr.Strip(args)) != "" ==> r == Shown(InvalidStyleText, true)
  {
    StyleChoice(PyStr.Lower(PyStr.Strip(args)), current)
  }

  /** The `/style` decision on the already normalised name. */
  function StyleChoice(name: string, current: string): (r: Effect)
    ensures r.StyleSet? <==> name in StyleNames
    ensures r.StyleSet? ==> r.style == name
    ensures name == "" ==> r == Shown(StylesText(current), false)
    ensures !r.StyleSet? && name != "" ==> r == Shown(InvalidStyleText, true)
  {
    if name == "" then Shown(StylesText(current), false)
    else if name !in StyleNames then Shown(InvalidStyleText, true)
    else StyleSet(name)
  }

  const ResetWarningText := "**Warning:** This will clear all conversation history.\n\nType `/reset confirm` to proceed."

  /** `/reset`: only the argument "confirm" (any case, any surrounding space) clears the session. */
  function ResetCommand(args: string): (r: Effect)
    ensures r == SessionReset <==> PyStr.Lower(PyStr.Strip(args)) == "confirm"
    ensures r != SessionReset ==> r == Shown(ResetWarningText, false)
  {
    if PyStr.Lower(PyStr.Strip(args)) != "confirm" then Shown(ResetWarningText, false) else SessionReset
  }

  /** ", ".join("/" + a for a in aliases) */
  function AliasList(aliases: seq<string>): string {
    PyStr.Join(", ", seq(|aliases|, i requires 0 <= i < |aliases| => "/" + aliases[i]))
  }

  /** The detailed help of one command. */
  function DetailText(cmd: SlashCommand): string {
    "\n**/" + cmd.name + "** - " + cmd.description + "\n\nUsage: `" + cmd.usage + "`\n"
    + (if cmd.aliases != [] then "Aliases: " + AliasList(cmd.aliases) + "\n" else "")
  }

  /** The line of one command in the full listing. */
  function ListingLine(cmd: SlashCommand): string {
    "  `/" + cmd.name + "`" + (if cmd.aliases != [] then " (" + AliasList(cmd.aliases) + ")" else "")
    + " - " + cmd.description + "\n"
  }

  const ListingHeader := "**Available Commands:**\n\n"
  const ListingFooter := "\nType `/help <command>` for detailed usage."

  /** The names of a list of commands. */
  function NameSet(cs: seq<SlashCommand>): set<string> {
    set c | c in cs :: c.name
  }

  /** The commands of the full listing: table entries in order, skipping a name already listed. */
  function Listed(d: PyDict.Dict<string, SlashCommand>): (r: seq<SlashCommand>)
    ensures |r| <= |d|
  {
    if d == [] then []
    else
      var init := Listed(d[..|d| - 1]);
      var cmd := d[|d| - 1].1;
      if cmd.name in NameSet(init) then init else init + [cmd]
  }

  /** Each command name appears once in the listing, and every command of the table has its name listed. */
  lemma {:induction false} ListedOnce(d: PyDict.Dict<string, SlashCommand>)
    ensures forall i, j :: 0 <= i < j < |Listed(d)| ==> Listed(d)[i].name != Listed(d)[j].name
    ensures forall i :: 0 <= i < |d| ==> d[i].1.name in NameSet(Listed(d))
    ensures forall c :: c in Listed(d) ==> exists i :: 0 <= i < |d| && d[i].1 == c
  {
    if d != [] {
      var init := d[..|d| - 1];
      ListedOnce(init);
      forall i | 0 <= i < |d| ensures d[i].1.name in NameSet(Listed(d)) {
        if i < |d| - 1 {
          assert d[i] == init[i];
        }
      }
      forall c | c in Listed(d) ensures exists i :: 0 <= i < |d| && d[i].1 == c {
        if c in Listed(init) {
          var i :| 0 <= i < |init| && init[i].1 == c;
          assert d[i] == init[i];
        } else {
          assert d[|d| - 1].1 == c;
        }
      }
    }
  }

  lemma {:induction false} ListedStep(d: PyDict.Dict<string, SlashCommand>, i: nat)
    requires i < |d|
    ensures Listed(d[..i + 1]) == if d[i].1.name in NameSet(Listed(d[..i])) then Listed(d[..i]) else Listed(d[..i]) + [d[i].1]
  {
    assert d[..i + 1][..i] == d[..i];
  }

  /** The listing lines of a list of commands. */
  function Lines(cs: seq<SlashCommand>): string {
    if cs == [] then "" else Lines(cs[..|cs| - 1]) + ListingLine(cs[|cs| - 1])
  }

  lemma {:induction false} LinesSnoc(cs: seq<SlashCommand>, c: SlashCommand)
    ensures Lines(cs + [c]) == Lines(cs) + ListingLine(c)
    ensures NameSet(cs + [c]) == NameSet(cs) + {c.name}
  {
    assert (cs + [c])[..|cs|] == cs;
  }

  /** The full `/help` text. */
  function HelpPage(d: PyDict.Dict<string, SlashCommand>): string {
    ListingHeader + Lines(Listed(d)) + ListingFooter
  }

  /** `/help`: the detailed help of a command named in the argument, or the full listing. */
  function HelpCommand(d: PyDict.Dict<string, SlashCommand>, args: string): (r: Effect)
    ensures args == "" ==> r == Shown(HelpPage(d), false)
    ensures args != "" ==> r.Shown? && (r.isError <==> PyDict.Get(d, PyStr.LStripChar(PyStr.Strip(args), '/')).None?)
  {
    if args == "" then Shown(HelpPage(d), false)
    else
      var name := PyStr.LStripChar(PyStr.Strip(args), '/');
      match PyDict.Get(d, name)
      case Some(cmd) => Shown(DetailText(cmd), false)
      case None => Shown("Unknown command: /" + name, true)
  }

  function UnknownText(name: string): string {
    "Unknown command: /" + name + ". Type /help for available commands."
  }

  class SlashCommandRegistry {
    var commands: PyDict.Dict<string, SlashCommand>

    /** Every key leads to a command that answers to it. */
    ghost predicate Valid()
      reads this
    {
      forall k :: PyDict.Get(commands, k).Some? ==> AnswersTo(PyDict.Get(commands, k).value, k)
    }

    /** The built-in commands. */
    constructor ()
      ensures Valid()
      ensures commands == RegisterAll([], Builtins)
      ensures forall k :: PyDict.Get(commands, k) == if Owner(k).Some? then Some(Builtins[Owner(k).value]) else None
    {
      commands := [];
      new;
      for n := 0 to |Builtins|
        invariant Valid() && commands == RegisterAll([], Builtins[..n])
      {
        var c := Builtins[n];
        BuiltinUsage(n);
        Register(c.name, c.description, c.handler, Some(c.aliases), c.usage);
        RegisterAllSnoc([], Builtins, n);
      }
      assert Builtins[..|Builtins|] == Builtins;
      BuiltinKeys();
    }

    /** `register` */
    method Register(name: string, description: string, handler: Handler, aliases: Option<seq<string>>, usage: string)
      requires Valid()
      modifies this
      ensures Valid()
      ensures commands == Registered(old(commands), NewCommand(name, description, handler, aliases, usage))
    {
      var cmd := NewCommand(name, description, handler, aliases, usage);
      commands := PyDict.Put(commands, name, cmd);
      for i := 0 to |cmd.aliases|
        invariant commands == PutAll(PyDict.Put(old(commands), name, cmd), cmd.aliases[..i], cmd)
      {
        assert cmd.aliases[..i + 1][..i] == cmd.aliases[..i];
        commands := PyDict.Put(commands, cmd.aliases[i], cmd);
      }
      assert cmd.aliases[..|cmd.aliases|] == cmd.aliases;
      forall k | PyDict.Get(commands, k).Some?
        ensures AnswersTo(PyDict.Get(commands, k).value, k)
      {
        RegisterLookup(old(commands), cmd, k);
      }
    }

    /** `execute`; `currentStyle` is the application's output style. */
    function Execute(input: string, currentStyle: string): (r: Effect)
      reads this
      ensures !Handled(r) <==> ParseCommand(input).None?
      ensures ParseCommand(input).Some? && PyDict.Get(commands, ParseCommand(input).value.0).None? ==>
        r == Shown(UnknownText(ParseCommand(input).value.0), true)
      ensures ParseCommand(input).Some? && PyDict.Get(commands, ParseCommand(input).value.0).Some? ==>
        r == Dispatch(PyDict.Get(commands, ParseCommand(input).value.0).value.handler, ParseCommand(input).value.1, currentStyle)
    {
      match ParseCommand(input)
      case None => NotCommand
      case Some((name, args)) =>
        match PyDict.Get(commands, name)
        case None => Shown(UnknownText(name), true)
        case Some(cmd) => Dispatch(cmd.handler, args, currentStyle)
    }

    /** What a known command's handler does with its arguments. */
    function Dispatch(handler: Handler, args: string, currentStyle: string): (r: Effect)
      reads this
      ensures Handled(r)
    {
      match handler
      case Help => HelpCommand(commands, args)
      case Style => StyleCommand(args, currentStyle)
      case Reset => ResetCommand(args)
      case _ => Delegated(handler, args)
    }

    /** The full listing built as `_cmd_help` does, skipping names already seen. */
    method FullHelp() returns (text: string)
      ensures text == HelpPage(commands)
    {
      var d := commands;
      var lines := "";
      var seen: set<string> := {};
      ghost var listed: seq<SlashCommand> := [];
      for i := 0 to |d|
        invariant listed == Listed(d[..i]) && seen == NameSet(listed)
        invariant lines == Lines(listed)
      {
        ListedStep(d, i);
        var cmd := d[i].1;
        if cmd.name !in seen {
          LinesSnoc(listed, cmd);
          seen := seen + {cmd.name};
          listed := listed + [cmd];
          lines := lines + ListingLine(cmd);
        }
      }
      assert d[..|d|] == d;
      text := ListingHeader + lines + ListingFooter;
    }
  }
}
