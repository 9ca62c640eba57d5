/** entry.py: the launcher that turns a YAML configuration into shell
    commands `python -m <module> --<key> <value> …`, fills the
    placeholders of the configuration text, splits continuous runs into
    batches of program ids, and reports the folder holding the programs.
    The YAML parser, the clock, the uuid, the temporary file, the screen
    log and the subprocess are outside the model: they are parameters. A
    YAML mapping is a sequence of key/value pairs in insertion order, as a
    Python dict keeps them. */
module Entry {
  import opened Py
  import opened PyStr

  type Args = seq<(string, Value)>

  /** One entry of `commands`: its `module`, `arguments` and optional
      nested `config`, absent keys as None. */
  datatype CommandConfig = CommandConfig(moduleName: Option<string>, arguments: Option<Args>, config: Option<Args>)

  // str() and repr() of a YAML value

  /** `str(v)`. */
  function StrOf(v: Value): string
    decreases v, 0
  {
    match v
    case Null => "None"
    case Bool(b) => if b then "True" else "False"
    case Int(i) => IntToString(i)
    case Str(s) => s
    case List(items) => "[" + Join(", ", seq(|items|, i requires 0 <= i < |items| => ReprOf(items[i]))) + "]"
    case Other(r) => r
  }

  /** `repr(v)`: strings quoted, other values as `str` gives them. */
  function ReprOf(v: Value): string
    decreases v, 1
  {
    if v.Str? then "'" + v.s + "'" else StrOf(v)
  }

  // build_command

  /** `str(value) in ['True', 'False'] or isinstance(value, bool)`. */
  predicate IsFlag(v: Value)
  {
    StrOf(v) == "True" || StrOf(v) == "False" || v.Bool?
  }

  /** `--key 'item'` for each element of a list value, in order. */
  function ListOptions(key: string, items: seq<Value>): (r: seq<string>)
    ensures |r| == |items|
    decreases |items|
  {
    if items == [] then []
    else ListOptions(key, items[..|items| - 1]) + ["--" + key + " '" + StrOf(items[|items| - 1]) + "'"]
  }

  /** The command-line parts one argument turns into. */
  function ArgOptions(key: string, v: Value): seq<string>
  {
    if IsFlag(v) then (if StrOf(v) == "True" then ["--" + key] else [])
    else if v.List? then ListOptions(key, v.items)
    else ["--" + key + " " + StrOf(v)]
  }

  /** The options of all arguments, in their order. */
  function Options(args: Args): seq<string>
    decreases |args|
  {
    if args == [] then []
    else Options(args[..|args| - 1]) + ArgOptions(args[|args| - 1].0, args[|args| - 1].1)
  }

  /** One more argument: its options follow `head` and the earlier ones. */
  lemma OptionsSnoc(head: seq<string>, args: Args, i: nat)
    requires i < |args|
    ensures head + Options(args[..i + 1]) == (head + Options(args[..i])) + ArgOptions(args[i].0, args[i].1)
  {
    assert args[..i + 1][..i] == args[..i];
  }

  /** `d[key] = v` on an ordered mapping: an existing key keeps its place,
      a new one goes last. */
  function SetItem(args: Args, key: string, v: Value): (r: Args)
    decreases |args|
  {
    if args == [] then [(key, v)]
    else if args[0].0 == key then [(key, v)] + args[1..]
    else [args[0]] + SetItem(args[1..], key, v)
  }

  /** The value of the first entry for `key`. */
  function Get(args: Args, key: string): Option<Value>
    decreases |args|
  {
    if args == [] then None
    else if args[0].0 == key then Some(args[0].1)
    else Get(args[1..], key)
  }

  /** After `d[key] = v`, `d[key]` is `v`, every other key reads as before,
      and setting it again changes nothing. */
  lemma {:induction false} SetItemSpec(args: Args, key: string, v: Value)
    ensures Get(SetItem(args, key, v), key) == Some(v)
    ensures forall k :: k != key ==> Get(SetItem(args, key, v), k) == Get(args, k)
    ensures SetItem(SetItem(args, key, v), key, v) == SetItem(args, key, v)
    ensures |SetItem(args, key, v)| == if Get(args, key).Some? then |args| else |args| + 1
    decreases |args|
  {
    if args != [] {
      if args[0].0 == key {
        assert ([(key, v)] + args[1..])[1..] == args[1..];
      } else {
        SetItemSpec(args[1..], key, v);
        var r := SetItem(args, key, v);
        assert r[0] == args[0] && r[1..] == SetItem(args[1..], key, v);
      }
    }
  }

  /** The parts of the command: the module call, the argument options, and
      `--config <file>` last when a non-empty nested config is given. */
  function CommandParts(moduleName: string, args: Args, config: Option<Args>, tmpPath: string): seq<string>
  {
    ["python -m " + moduleName] + Options(args)
    + (if config.Some? && config.value != [] then ["--config " + tmpPath] else [])
  }

  /** The options one argument appends to the command parts. */
  method AppendArgOptions(parts: seq<string>, key: string, value: Value) returns (parts': seq<string>)
    ensures parts' == parts + ArgOptions(key, value)
  {
    parts' := parts;
    if IsFlag(value) {
      if StrOf(value) == "True" {
        parts' := parts' + ["--" + key];
      }
    } else if value.List? {
      var items := value.items;
      for j := 0 to |items|
        invariant parts' == parts + ListOptions(key, items[..j])
      {
        assert items[..j + 1][..j] == items[..j];
        parts' := parts' + ["--" + key + " '" + StrOf(items[j]) + "'"];
      }
      assert items[..|items|] == items;
    } else {
      parts' := parts' + ["--" + key + " " + StrOf(value)];
    }
  }

  /** The options loop of build_command, over arguments that already hold
      the end timestamp. */
  method BuildCommandLine(moduleName: string, args: Args, config: Option<Args>, tmpPath: string)
    returns (command: string)
    ensures command == Join(" ", CommandParts(moduleName, args, config, tmpPath))
  {
    var parts := ["python -m " + moduleName];
    for i := 0 to |args|
      invariant parts == ["python -m " + moduleName] + Options(args[..i])
    {
      OptionsSnoc(["python -m " + moduleName], args, i);
      parts := AppendArgOptions(parts, args[i].0, args[i].1);
    }
    assert args[..|args|] == args;
    if config.Some? && config.value != [] {
      parts := parts + ["--config " + tmpPath];
    } else {
      assert parts + [] == parts;
    }
    command := Join(" ", parts);
  }

  /** build_command as a value: the command, or the KeyError of a missing
      `module` or `arguments`, and the command config as the call leaves
      it, its arguments holding the end timestamp. */
  function Built(cc: CommandConfig, endTimestamp: int, tmpPath: string): (Result<string>, CommandConfig)
  {
    if cc.moduleName.None? then (Err(KeyError("module")), cc)
    else if cc.arguments.None? then (Err(KeyError("arguments")), cc)
    else
      var args := SetItem(cc.arguments.value, "end_timestamp", Int(endTimestamp));
      (Ok(Join(" ", CommandParts(cc.moduleName.value, args, cc.config, tmpPath))), cc.(arguments := Some(args)))
  }

  /** build_command: a missing `module` or `arguments` raises KeyError; the
      end timestamp is written into the arguments, which the caller sees
      changed. */
  method BuildCommand(cc: CommandConfig, endTimestamp: int, tmpPath: string)
    returns (r: Result<string>, cc': CommandConfig)
    ensures (r, cc') == Built(cc, endTimestamp, tmpPath)
    ensures cc.moduleName.None? ==> r == Err(KeyError("module")) && cc' == cc
    ensures cc.moduleName.Some? && cc.arguments.None? ==> r == Err(KeyError("arguments")) && cc' == cc
    ensures cc.moduleName.Some? && cc.arguments.Some? ==>
      var args := SetItem(cc.arguments.value, "end_timestamp", Int(endTimestamp));
      && cc' == cc.(arguments := Some(args))
      && r == Ok(Join(" ", CommandParts(cc.moduleName.value, args, cc.config, tmpPath)))
  {
    cc' := cc;
    if cc.moduleName.None? {
      return Err(KeyError("module")), cc';
    }
    if cc.arguments.None? {
      return Err(KeyError("arguments")), cc';
    }
    var args := SetItem(cc.arguments.value, "end_timestamp", Int(endTimestamp));
    cc' := cc.(arguments := Some(args));
    var command := BuildCommandLine(cc.moduleName.value, args, cc.config, tmpPath);
    r := Ok(command);
  }

  /** What one argument contributes: a true flag its bare `--key`, a false
      flag nothing, a list one quoted option per element in order, any
      other value `--key value`. */
  lemma {:induction false} ArgOptionsSpec(key: string, v: Value)
    ensures v == Bool(true) || v == Str("True") ==> ArgOptions(key, v) == ["--" + key]
    ensures v == Bool(false) || v == Str("False") ==> ArgOptions(key, v) == []
    ensures v.List? ==> forall i :: 0 <= i < |v.items| ==>
      |ArgOptions(key, v)| == |v.items| && ArgOptions(key, v)[i] == "--" + key + " '" + StrOf(v.items[i]) + "'"
    ensures v.Int? ==> ArgOptions(key, v) == ["--" + key + " " + IntToString(v.i)]
  {
    if v.List? {
      ListOptionsAt(key, v.items);
      assert StrOf(v) != "True" && StrOf(v) != "False" by {
        assert StrOf(v)[0] == '[';
      }
    }
    if v.Int? {
      IntStringNotFlag(v.i);
    }
  }

  lemma {:induction false} ListOptionsAt(key: string, items: seq<Value>)
    ensures forall i :: 0 <= i < |items| ==> ListOptions(key, items)[i] == "--" + key + " '" + StrOf(items[i]) + "'"
    decreases |items|
  {
    if items != [] {
      var n := |items| - 1;
      ListOptionsAt(key, items[..n]);
      assert forall i :: 0 <= i < n ==> items[..n][i] == items[i];
    }
  }

  /** No integer prints as `True` or `False`. */
  lemma {:induction false} IntStringNotFlag(i: int)
    ensures IntToString(i) != "True" && IntToString(i) != "False"
  {
    if i >= 0 {
      assert IsDigit(NatToString(i)[0]);
    } else {
      assert IntToString(i)[0] == '-';
    }
  }

  /** Options of a list of arguments are the options of each, in order. */
  lemma {:induction false} OptionsAppend(a: Args, b: Args)
    ensures Options(a + b) == Options(a) + Options(b)
    decreases |b|
  {
    if b == [] {
      assert a + b == a;
    } else {
      var ab := a + b;
      var init := b[..|b| - 1];
      var last := ArgOptions(b[|b| - 1].0, b[|b| - 1].1);
      assert ab[..|ab| - 1] == a + init;
      assert ab[|ab| - 1] == b[|b| - 1];
      assert Options(ab) == Options(a + init) + last;
      assert Options(b) == Options(init) + last;
      OptionsAppend(a, init);
      ConcatAssoc(Options(a), Options(init), last);
    }
  }

  /** The built command starts with the module call, always passes the end
      timestamp, and ends with the nested config file when there is
      one. */
  lemma {:induction false} CommandSpec(moduleName: string, args: Args, endTimestamp: int, config: Option<Args>, tmpPath: string)
    ensures var parts := CommandParts(moduleName, SetItem(args, "end_timestamp", Int(endTimestamp)), config, tmpPath);
      && parts[0] == "python -m " + moduleName
      && "--" + "end_timestamp" + " " + IntToString(endTimestamp) in parts
      && (config.Some? && config.value != [] ==> parts[|parts| - 1] == "--config " + tmpPath)
  {
    EndTimestampOption(args, endTimestamp);
  }

  /** Writing the end timestamp puts its option among the options. */
  lemma {:induction false} EndTimestampOption(args: Args, t: int)
    ensures "--" + "end_timestamp" + " " + IntToString(t) in Options(SetItem(args, "end_timestamp", Int(t)))
    decreases |args|
  {
    var opt := "--" + "end_timestamp" + " " + IntToString(t);
    IntStringNotFlag(t);
    assert StrOf(Int(t)) == IntToString(t);
    assert ArgOptions("end_timestamp", Int(t)) == [opt];
    if args == [] {
      assert Options([("end_timestamp", Int(t))]) == Options([]) + [opt];
    } else if args[0].0 == "end_timestamp" {
      OptionsAppend([("end_timestamp", Int(t))], args[1..]);
      assert Options([("end_timestamp", Int(t))]) == Options([]) + [opt];
    } else {
      EndTimestampOption(args[1..], t);
      OptionsAppend([args[0]], SetItem(args[1..], "end_timestamp", Int(t)));
    }
  }

  // replace_program_range

  /** The commands with `program_id_range` replaced in those nested
      configs that already have one; nothing else changes. */
  function ReplaceProgramRange(commands: seq<CommandConfig>, range: seq<int>): (r: seq<CommandConfig>)
    ensures |r| == |commands|
  {
    seq(|commands|, i requires 0 <= i < |commands| => WithRange(commands[i], range))
  }

  function RangeValue(range: seq<int>): Value
  {
    List(seq(|range|, i requires 0 <= i < |range| => Int(range[i])))
  }

  function WithRange(c: CommandConfig, range: seq<int>): CommandConfig
  {
    if c.config.Some? && Get(c.config.value, "program_id_range").Some? then
      c.(config := Some(SetItem(c.config.value, "program_id_range", RangeValue(range))))
    else c
  }

  /** Only a nested config that has the key gets the new range; every
      other key and every other command stays as it was. */
  lemma {:induction false} ReplaceProgramRangeSpec(commands: seq<CommandConfig>, range: seq<int>)
    ensures forall i :: 0 <= i < |commands| ==>
      var c := commands[i];
      var c' := ReplaceProgramRange(commands, range)[i];
      && c'.moduleName == c.moduleName && c'.arguments == c.arguments
      && (c.config.None? ==> c'.config.None?)
      && (c.config.Some? ==> c'.config.Some? && forall k :: k != "program_id_range" ==> Get(c'.config.value, k) == Get(c.config.value, k))
      && (c.config.Some? && Get(c.config.value, "program_id_range").Some? ==>
            Get(c'.config.value, "program_id_range") == Some(RangeValue(range)))
      && (c.config.Some? && Get(c.config.value, "program_id_range").None? ==> c' == c)
  {
    forall i | 0 <= i < |commands| && commands[i].config.Some? {
      SetItemSpec(commands[i].config.value, "program_id_range", RangeValue(range));
    }
  }

  // Batches

  /** The program id range of batch `b`, both ends included. */
  function BatchRange(b: nat, size: int): seq<int>
  {
    [b * size, (b + 1) * size]
  }

  /** Batch `b` starts where batch `b - 1` ends, so the boundary id is in
      both, and each batch spans `size` ids. */
  lemma {:induction false} BatchesShareBoundary(b: nat, size: int)
    ensures BatchRange(b + 1, size)[0] == BatchRange(b, size)[1]
    ensures BatchRange(b, size)[1] - BatchRange(b, size)[0] == size
  {
  }

  /** The `commands` branch of one batch: each command is built and run in
      order; a command that exits non-zero raises CalledProcessError. The
      commands run and the commands as the batch leaves them. */
  function RunCommands(commands: seq<CommandConfig>, endTimestamp: int, tmpPath: string, exitCode: string -> int)
    : (Result<seq<string>>, seq<CommandConfig>)
    decreases |commands|
  {
    if commands == [] then (Ok([]), [])
    else
      var (built, c') := Built(commands[0], endTimestamp, tmpPath);
      if built.Err? then (Err(built.exc), commands)
      else if exitCode(built.value) != 0 then (Err(NonZeroExit(built.value, exitCode(built.value))), [c'] + commands[1..])
      else
        var (rest, cs) := RunCommands(commands[1..], endTimestamp, tmpPath, exitCode);
        (Prepend([built.value], rest), [c'] + cs)
  }

  /** The CalledProcessError of a command that exits non-zero. */
  function NonZeroExit(command: string, code: int): Exception
  {
    Raised("Command '" + command + "' returned non-zero exit status " + IntToString(code) + ".")
  }

  /** The loop over `config_data['commands']`. */
  method RunAll(commands: seq<CommandConfig>, endTimestamp: int, tmpPath: string, exitCode: string -> int)
    returns (r: Result<seq<string>>, commands': seq<CommandConfig>)
    ensures (r, commands') == RunCommands(commands, endTimestamp, tmpPath, exitCode)
  {
    var ran: seq<string> := [];
    var done: seq<CommandConfig> := [];
    PrependEmpty(RunCommands(commands, endTimestamp, tmpPath, exitCode).0);
    for i := 0 to |commands|
      invariant RunCommands(commands, endTimestamp, tmpPath, exitCode).0
                == Prepend(ran, RunCommands(commands[i..], endTimestamp, tmpPath, exitCode).0)
      invariant RunCommands(commands, endTimestamp, tmpPath, exitCode).1
                == done + RunCommands(commands[i..], endTimestamp, tmpPath, exitCode).1
    {
      ghost var here := RunCommands(commands[i..], endTimestamp, tmpPath, exitCode);
      ghost var tail := RunCommands(commands[i + 1..], endTimestamp, tmpPath, exitCode);
      var built, c' := BuildCommand(commands[i], endTimestamp, tmpPath);
      RunCommandsStep(commands, i, endTimestamp, tmpPath, exitCode);
      if built.Err? {
        return Err(built.exc), done + commands[i..];
      }
      var command := built.value;
      if exitCode(command) != 0 {
        ConcatAssoc(done, [c'], commands[i + 1..]);
        return Err(NonZeroExit(command, exitCode(command))), (done + [c']) + commands[i + 1..];
      }
      PrependPrepend(ran, [command], tail.0);
      ConcatAssoc(done, [c'], tail.1);
      ran := ran + [command];
      done := done + [c'];
    }
    assert commands[|commands|..] == [];
    assert ran + [] == ran && done + [] == done;
    r := Ok(ran);
    commands' := done;
  }

  lemma {:induction false} ConcatAssoc<T>(a: seq<T>, b: seq<T>, c: seq<T>)
    ensures a + (b + c) == (a + b) + c
  {
  }

  /** One step of the commands loop, from command `i` on. */
  lemma {:induction false} RunCommandsStep(commands: seq<CommandConfig>, i: nat, endTimestamp: int, tmpPath: string, exitCode: string -> int)
    requires i < |commands|
    ensures var (built, c') := Built(commands[i], endTimestamp, tmpPath);
      var here := RunCommands(commands[i..], endTimestamp, tmpPath, exitCode);
      var tail := RunCommands(commands[i + 1..], endTimestamp, tmpPath, exitCode);
      && (built.Err? ==> here == (Err(built.exc), commands[i..]))
      && (built.Ok? && exitCode(built.value) != 0 ==>
            here == (Err(NonZeroExit(built.value, exitCode(built.value))), [c'] + commands[i + 1..]))
      && (built.Ok? && exitCode(built.value) == 0 ==>
            here == (Prepend([built.value], tail.0), [c'] + tail.1))
  {
    assert commands[i..][0] == commands[i] && commands[i..][1..] == commands[i + 1..];
  }

  /** A batch that completes runs one command per configured command, in
      order, each with its module call first; the commands keep their
      modules. */
  lemma {:induction false} RunCommandsSpec(commands: seq<CommandConfig>, endTimestamp: int, tmpPath: string,
                                           exitCode: string -> int)
    ensures var (r, cs) := RunCommands(commands, endTimestamp, tmpPath, exitCode);
      && |cs| == |commands|
      && (forall i :: 0 <= i < |cs| ==> cs[i].moduleName == commands[i].moduleName)
      && (r.Ok? ==> && |r.value| == |commands|
                    && forall i :: 0 <= i < |commands| ==>
                         commands[i].moduleName.Some?
                         && StartsWith(r.value[i], "python -m " + commands[i].moduleName.value) && exitCode(r.value[i]) == 0)
  {
    RunCommandsKeepModules(commands, endTimestamp, tmpPath, exitCode);
    RunCommandsRan(commands, endTimestamp, tmpPath, exitCode);
  }

  /** The commands keep their modules, whether or not the batch completes. */
  lemma {:induction false} RunCommandsKeepModules(commands: seq<CommandConfig>, endTimestamp: int, tmpPath: string,
                                                  exitCode: string -> int)
    ensures var cs := RunCommands(commands, endTimestamp, tmpPath, exitCode).1;
      && |cs| == |commands|
      && (forall i :: 0 <= i < |cs| ==> cs[i].moduleName == commands[i].moduleName)
    decreases |commands|
  {
    if commands != [] {
      var rest := commands[1..];
      RunCommandsKeepModules(rest, endTimestamp, tmpPath, exitCode);
      var b := Built(commands[0], endTimestamp, tmpPath);
      BuiltKeepsModule(commands[0], endTimestamp, tmpPath);
      RunCommandsStep(commands, 0, endTimestamp, tmpPath, exitCode);
      assert commands[0..] == commands;
      if b.0.Ok? {
        var tail := if exitCode(b.0.value) != 0 then rest
                    else RunCommands(rest, endTimestamp, tmpPath, exitCode).1;
        ModulesCons(commands, b.1, tail);
      }
    }
  }

  /** Building a command leaves the module as it was. */
  lemma BuiltKeepsModule(cc: CommandConfig, endTimestamp: int, tmpPath: string)
    ensures Built(cc, endTimestamp, tmpPath).1.moduleName == cc.moduleName
  {
  }

  /** A command with its module kept, then the others with theirs. */
  lemma ModulesCons(commands: seq<CommandConfig>, c: CommandConfig, tail: seq<CommandConfig>)
    requires commands != [] && c.moduleName == commands[0].moduleName && |tail| == |commands| - 1
    requires forall i :: 0 <= i < |tail| ==> tail[i].moduleName == commands[1..][i].moduleName
    ensures var cs := [c] + tail;
      forall i :: 0 <= i < |cs| ==> cs[i].moduleName == commands[i].moduleName
  {
    var cs := [c] + tail;
    forall i | 1 <= i < |cs| ensures cs[i] == tail[i - 1] && commands[i] == commands[1..][i - 1] {
    }
  }

  /** A batch that completes runs one command per configured command, in
      order, each with its module call first. */
  lemma {:induction false} RunCommandsRan(commands: seq<CommandConfig>, endTimestamp: int, tmpPath: string,
                                          exitCode: string -> int)
    ensures var r := RunCommands(commands, endTimestamp, tmpPath, exitCode).0;
      r.Ok? ==> && |r.value| == |commands|
                && forall i :: 0 <= i < |commands| ==>
                     commands[i].moduleName.Some?
                     && StartsWith(r.value[i], "python -m " + commands[i].moduleName.value) && exitCode(r.value[i]) == 0
    decreases |commands|
  {
    if commands != [] {
      var rest := commands[1..];
      RunCommandsRan(rest, endTimestamp, tmpPath, exitCode);
      var b := Built(commands[0], endTimestamp, tmpPath);
      RunCommandsStep(commands, 0, endTimestamp, tmpPath, exitCode);
      assert commands[0..] == commands;
      var tail := RunCommands(rest, endTimestamp, tmpPath, exitCode).0;
      if b.0.Ok? && exitCode(b.0.value) == 0 && tail.Ok? {
        BuiltStartsWithModule(commands[0], endTimestamp, tmpPath);
        RanCons(commands, b.0.value, tail.value, exitCode);
      }
    }
  }

  /** A built command starts with its module call. */
  lemma BuiltStartsWithModule(cc: CommandConfig, endTimestamp: int, tmpPath: string)
    requires Built(cc, endTimestamp, tmpPath).0.Ok?
    ensures cc.moduleName.Some? && StartsWith(Built(cc, endTimestamp, tmpPath).0.value, "python -m " + cc.moduleName.value)
  {
    var args := SetItem(cc.arguments.value, "end_timestamp", Int(endTimestamp));
    JoinStartsWith(" ", CommandParts(cc.moduleName.value, args, cc.config, tmpPath));
  }

  /** The first command, then the others. */
  lemma RanCons(commands: seq<CommandConfig>, command: string, tail: seq<string>, exitCode: string -> int)
    requires commands != [] && |tail| == |commands| - 1
    requires commands[0].moduleName.Some? && StartsWith(command, "python -m " + commands[0].moduleName.value) && exitCode(command) == 0
    requires forall i :: 0 <= i < |tail| ==>
               commands[1..][i].moduleName.Some?
               && StartsWith(tail[i], "python -m " + commands[1..][i].moduleName.value) && exitCode(tail[i]) == 0
    ensures var all := [command] + tail;
      forall i :: 0 <= i < |commands| ==>
        commands[i].moduleName.Some?
        && StartsWith(all[i], "python -m " + commands[i].moduleName.value) && exitCode(all[i]) == 0
  {
    var all := [command] + tail;
    forall i | 1 <= i < |commands| ensures all[i] == tail[i - 1] && commands[i] == commands[1..][i - 1] {
    }
  }

  /** A join starts with its first part. */
  lemma {:induction false} JoinStartsWith(sep: string, parts: seq<string>)
    requires parts != []
    ensures StartsWith(Join(sep, parts), parts[0])
  {
    if |parts| > 1 {
      assert Join(sep, parts)[..|parts[0]|] == parts[0];
    }
  }

  /** The YAML keys main reads at the top level. */
  datatype Config = Config(commands: Option<seq<CommandConfig>>, command: Option<CommandConfig>,
                           batchSize: Option<int>)

  /** One batch of main's loop: the range is written into the configs, then
      the commands run. replace_program_range reads `commands` first, so a
      configuration with a single `command` raises KeyError before its
      branch is reached. */
  function Batch(cfg: Config, b: nat, endTimestamp: int, tmpPath: string, exitCode: string -> int)
    : (r: (Result<seq<string>>, Config))
  {
    if cfg.batchSize.None? then (Err(TypeError("unsupported operand type(s) for *: 'int' and 'NoneType'")), cfg)
    else if cfg.commands.None? then (Err(KeyError("commands")), cfg)
    else
      var commands := ReplaceProgramRange(cfg.commands.value, BatchRange(b, cfg.batchSize.value));
      var (ran, cs) := RunCommands(commands, endTimestamp, tmpPath, exitCode);
      (ran, cfg.(commands := Some(cs)))
  }

  /** A configuration with the single `command` form never runs it. */
  lemma {:induction false} SingleCommandNeverRuns(cfg: Config, b: nat, endTimestamp: int, tmpPath: string, exitCode: string -> int)
    requires cfg.commands.None? && cfg.command.Some? && cfg.batchSize.Some?
    ensures Batch(cfg, b, endTimestamp, tmpPath, exitCode).0 == Err(KeyError("commands"))
  {
  }

  /** The single `command` branch as written, were it reached: it calls
      build_command without the end timestamp that build_command requires,
      so the call raises TypeError before anything is built or run. */
  function SingleBranchAsWritten(cfg: Config): (r: (Result<seq<string>>, Config))
    requires cfg.command.Some?
  {
    (Err(TypeError("build_command() missing 1 required positional argument: 'end_timestamp'")), cfg)
  }

  /** Where the intended batch runs its one command, the branch as written
      raises TypeError and leaves the configuration as it was. */
  lemma {:induction false} SingleBranchRaises(cfg: Config, endTimestamp: int, tmpPath: string, exitCode: string -> int)
    requires cfg.command.Some? && cfg.command.value.moduleName.Some? && cfg.command.value.arguments.Some?
    requires exitCode(Built(cfg.command.value, endTimestamp, tmpPath).0.value) == 0
    ensures SingleBatch(cfg, endTimestamp, tmpPath, exitCode).0.Ok?
    ensures var (r, cfg') := SingleBranchAsWritten(cfg); r.Err? && r.exc.TypeError? && cfg' == cfg
  {
    var c := cfg.command.value;
    assert [c][1..] == [];
    assert RunCommands([c][1..], endTimestamp, tmpPath, exitCode).0 == Ok([]);
  }

  /** The batch the single `command` form was evidently meant to run: its
      one command, built with the end timestamp like the others. */
  function SingleBatch(cfg: Config, endTimestamp: int, tmpPath: string, exitCode: string -> int)
    : (Result<seq<string>>, Config)
    requires cfg.command.Some?
  {
    var (ran, cs) := RunCommands([cfg.command.value], endTimestamp, tmpPath, exitCode);
    (ran, cfg.(command := Some(cs[0])))
  }

  /** The single command runs once, with its module call first and the end
      timestamp among its options. */
  lemma {:induction false} SingleBatchSpec(cfg: Config, endTimestamp: int, tmpPath: string, exitCode: string -> int)
    requires cfg.command.Some? && cfg.command.value.moduleName.Some? && cfg.command.value.arguments.Some?
    ensures var r := SingleBatch(cfg, endTimestamp, tmpPath, exitCode).0;
      var c := cfg.command.value;
      r.Ok? ==> && |r.value| == 1 && StartsWith(r.value[0], "python -m " + c.moduleName.value)
                && r.value[0] == Join(" ", CommandParts(c.moduleName.value,
                     SetItem(c.arguments.value, "end_timestamp", Int(endTimestamp)), c.config, tmpPath))
  {
    RunCommandsSpec([cfg.command.value], endTimestamp, tmpPath, exitCode);
  }

  /** The end of the time budget: now plus the budget when one is set
      (a zero budget counts as none), -1 otherwise. */
  function EndTimestamp(budget: Option<int>, now: int): int
  {
    if budget.Some? && budget.value != 0 then now + budget.value else -1
  }

  /** Whether main starts another batch: only in continuous mode, and not
      once the end timestamp has passed. */
  predicate Continues(endTimestamp: int, now: int, continuous: bool)
  {
    !(endTimestamp != -1 && now > endTimestamp) && continuous
  }

  /** Without continuous mode there is one batch; with a budget, none after
      the budget is spent. */
  lemma {:induction false} ContinuesSpec(budget: Option<int>, start: int, now: int, continuous: bool)
    ensures !continuous ==> !Continues(EndTimestamp(budget, start), now, continuous)
    ensures budget.Some? && budget.value > 0 && start >= 0 && now > start + budget.value ==>
              !Continues(EndTimestamp(budget, start), now, continuous)
  {
  }

  /** Python's truth value of a YAML value. */
  predicate Truthy(v: Value)
  {
    match v
    case Null => false
    case Bool(b) => b
    case Int(i) => i != 0
    case Str(s) => s != ""
    case List(items) => items != []
    case Other(_) => true
  }

  /** The `input_folder` of a command's arguments. */
  function InputFolder(c: CommandConfig): Result<Value>
  {
    if c.arguments.None? then Err(KeyError("arguments"))
    else
      match Get(c.arguments.value, "input_folder")
      case None => Err(KeyError("input_folder"))
      case Some(v) => Ok(v)
  }

  /** The first `qite.qite_loop` command, if any. */
  function FirstQiteLoop(commands: seq<CommandConfig>): (r: Option<nat>)
    ensures r.Some? ==> r.value < |commands| && commands[r.value].moduleName == Some("qite.qite_loop")
    ensures r.Some? ==> forall j :: 0 <= j < r.value ==> commands[j].moduleName != Some("qite.qite_loop")
    ensures r.None? ==> forall j :: 0 <= j < |commands| ==> commands[j].moduleName != Some("qite.qite_loop")
    decreases |commands|
  {
    if commands == [] then None
    else if commands[0].moduleName == Some("qite.qite_loop") then Some(0)
    else
      match FirstQiteLoop(commands[1..])
      case None => None
      case Some(k) => Some(k + 1)
  }

  /** The folder printed last: the input folder of the first QITE loop
      command, or, when there is none or it is empty, that of the last
      command. */
  function OutputFolder(commands: seq<CommandConfig>): Result<Value>
  {
    var first: Result<Value> := match FirstQiteLoop(commands)
      case None => Ok(Null)
      case Some(k) => InputFolder(commands[k]);
    if first.Err? then first
    else if Truthy(first.value) then first
    else if commands == [] then Err(IndexError("list index out of range"))
    else InputFolder(commands[|commands| - 1])
  }

  /** A QITE loop command with a non-empty input folder decides the folder,
      whatever comes after it. */
  lemma {:induction false} OutputFolderQiteLoop(commands: seq<CommandConfig>, k: nat, folder: string)
    requires k < |commands| && commands[k].moduleName == Some("qite.qite_loop")
    requires forall j :: 0 <= j < k ==> commands[j].moduleName != Some("qite.qite_loop")
    requires InputFolder(commands[k]) == Ok(Str(folder)) && folder != ""
    ensures OutputFolder(commands) == Ok(Str(folder))
  {
  }

  /** Without a QITE loop command the last command's input folder is
      printed, and an empty command list fails on `[-1]`. */
  lemma {:induction false} OutputFolderFallback(commands: seq<CommandConfig>)
    requires forall j :: 0 <= j < |commands| ==> commands[j].moduleName != Some("qite.qite_loop")
    ensures commands == [] ==> OutputFolder(commands) == Err(IndexError("list index out of range"))
    ensures commands != [] ==> OutputFolder(commands) == InputFolder(commands[|commands| - 1])
  {
  }

  // fill_and_load_config

  const RunFolderMark := "<<RUN_FOLDER>>"
  const FileNameMark := "<<THIS_FILE_NAME>>"
  const BatchSizeMark := "<<BATCH_SIZE>>"
  const HalfBatchSizeMark := "<<HALF_BATCH_SIZE>>"
  const NoBatchSize := "Placeholder '<<BATCH_SIZE>>' found but 'batch_size' is not defined in the config file."

  /** What the first parse of the configuration text gives for
      `config_dict['batch_size']`: the document is not a mapping, so the
      lookup raises TypeError with the given message; the mapping lacks the
      key; the key holds a finite float; or it holds another value. */
  datatype BatchField =
    | NotMapping(typeErrorMsg: string)
    | Missing
    | FloatValue(x: real)
    | Present(v: Value)

  /** `int(x)` on a float truncates toward zero. */
  function Truncate(x: real): (n: int)
    ensures x >= 0.0 ==> 0 <= n && n as real <= x < n as real + 1.0
    ensures x < 0.0 ==> n <= 0 && n as real - 1.0 < x <= n as real
  {
    if x >= 0.0 then x.Floor else -((-x).Floor)
  }

  /** The type name `int()` reports for a value it cannot convert; `Other`
      stands here for a nested mapping. */
  function TypeNameOf(v: Value): string
  {
    if v.Null? then "NoneType" else if v.List? then "list" else "dict"
  }

  /** The TypeError `int()` raises on a value of another type. */
  function NotNumber(v: Value): Exception
  {
    TypeError("int() argument must be a string, a bytes-like object or a real number, not '" + TypeNameOf(v) + "'")
  }

  /** The ValueError `int()` raises on a string that is not an integer. */
  function NotIntLiteral(s: string): Exception
  {
    ValueError("invalid literal for int() with base 10: '" + s + "'")
  }

  /** `int(v)` on a parsed value other than a float: booleans are 1 and 0,
      strings must spell an integer, and any other type raises TypeError. */
  function IntOf(v: Value): (r: Result<int>)
    ensures r.Ok? <==> v.Int? || v.Bool? || (v.Str? && ParseInt(v.s).Some?)
    ensures v.Int? ==> r == Ok(v.i)
    ensures (v.Null? || v.List? || v.Other?) ==> r.Err? && r.exc.TypeError?
  {
    if v.Bool? then Ok(if v.b then 1 else 0)
    else if v.Int? then Ok(v.i)
    else if v.Str? then
      var n := ParseInt(v.s);
      if n.Some? then Ok(n.value) else Err(NotIntLiteral(v.s))
    else Err(NotNumber(v))
  }

  /** The text with the run folder (the minute stamp and six uuid
      characters) and the file's stem filled in. */
  function Marked(raw: string, stamp: string, uid: string, stem: string): string
  {
    ReplaceAll(ReplaceAll(raw, RunFolderMark, stamp + "_" + uid), FileNameMark, stem)
  }

  /** The text with the batch size and its floor half filled in. */
  function WithBatchSize(t: string, n: int): string
  {
    ReplaceAll(ReplaceAll(t, BatchSizeMark, IntToString(n)), HalfBatchSizeMark, IntToString(n / 2))
  }

  /** The configuration text before its final parse: the run folder and
      the stem, then the batch size read from the first parse. Only a
      missing key becomes the placeholder exception; a document that is not
      a mapping and a value `int()` refuses raise their own exception,
      whether or not the text uses the placeholder. */
  function FillConfig(raw: string, stamp: string, uid: string, stem: string, batchSizeOf: string -> BatchField)
    : Result<string>
  {
    var t := Marked(raw, stamp, uid, stem);
    match batchSizeOf(t)
    case NotMapping(msg) => Err(TypeError(msg))
    case Missing => Err(Raised(NoBatchSize))
    case FloatValue(x) => Ok(WithBatchSize(t, Truncate(x)))
    case Present(v) =>
      match IntOf(v)
      case Err(e) => Err(e)
      case Ok(n) => Ok(WithBatchSize(t, n))
  }

  /** Which first parses let the text through, and how the others fail:
      the placeholder exception exactly for a missing key, TypeError for a
      non-mapping document or a value of the wrong type, ValueError for a
      string that is not an integer. */
  lemma {:induction false} FillConfigOutcome(raw: string, stamp: string, uid: string, stem: string,
                                             batchSizeOf: string -> BatchField)
    ensures var f := batchSizeOf(Marked(raw, stamp, uid, stem));
      var r := FillConfig(raw, stamp, uid, stem, batchSizeOf);
      && (r.Ok? <==> f.FloatValue? || (f.Present? && (f.v.Int? || f.v.Bool? || (f.v.Str? && ParseInt(f.v.s).Some?))))
      && (r == Err(Raised(NoBatchSize)) <==> f.Missing?)
      && (r.Err? && r.exc.TypeError? <==> f.NotMapping? || (f.Present? && (f.v.Null? || f.v.List? || f.v.Other?)))
      && (r.Err? && r.exc.ValueError? <==> f.Present? && f.v.Str? && ParseInt(f.v.s).None?)
  {
    var f := batchSizeOf(Marked(raw, stamp, uid, stem));
    if f.Present? {
      var _ := IntOf(f.v);
    }
  }

  /** Without any placeholder the text comes back as it was when
      `batch_size` converts to an integer (an integer, a boolean, a float),
      and a missing `batch_size` still raises. */
  lemma {:induction false} FillConfigUnmarked(raw: string, stamp: string, uid: string, stem: string,
                           batchSizeOf: string -> BatchField, n: int)
    requires !Contains(raw, RunFolderMark) && !Contains(raw, FileNameMark)
    requires !Contains(raw, BatchSizeMark) && !Contains(raw, HalfBatchSizeMark)
    ensures batchSizeOf(raw).Missing? ==> FillConfig(raw, stamp, uid, stem, batchSizeOf) == Err(Raised(NoBatchSize))
    ensures batchSizeOf(raw) == Present(Int(n)) ==> FillConfig(raw, stamp, uid, stem, batchSizeOf) == Ok(raw)
    ensures batchSizeOf(raw).Present? && batchSizeOf(raw).v.Bool? ==> FillConfig(raw, stamp, uid, stem, batchSizeOf) == Ok(raw)
    ensures batchSizeOf(raw).FloatValue? ==> FillConfig(raw, stamp, uid, stem, batchSizeOf) == Ok(raw)
  {
    ReplaceAbsent(raw, RunFolderMark, stamp + "_" + uid);
    ReplaceAbsent(raw, FileNameMark, stem);
    assert Marked(raw, stamp, uid, stem) == raw;
    forall k: int
      ensures WithBatchSize(raw, k) == raw
    {
      ReplaceAbsent(raw, BatchSizeMark, IntToString(k));
      ReplaceAbsent(raw, HalfBatchSizeMark, IntToString(k / 2));
    }
  }
}
