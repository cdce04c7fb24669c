/** Long command-line flags, the way pflag parses them: a table of flags with their defaults, overwritten one
 *  argument at a time.
 */
module Flags {
  import opened Wrappers
  import opened Decimal

  datatype Name = Namespace | Chain | Node | DeployMethod | Action | SourcePath | DestPath | Compress | CompressType
                | Output | Decompress | Md5 | Input | DeleteConsensusData | BlockHeight | Crypto | Consensus
                | Uid | Gid | SourceNode | DestNode

  function Spelling(n: Name): string {
    match n
    case Namespace => "namespace"
    case Chain => "chain"
    case Node => "node"
    case DeployMethod => "deploy-method"
    case Action => "action"
    case SourcePath => "source-path"
    case DestPath => "dest-path"
    case Compress => "compress"
    case CompressType => "compress-type"
    case Output => "output"
    case Decompress => "decompress"
    case Md5 => "md5"
    case Input => "input"
    case DeleteConsensusData => "delete-consensus-data"
    case BlockHeight => "block-height"
    case Crypto => "crypto"
    case Consensus => "consensus"
    case Uid => "uid"
    case Gid => "gid"
    case SourceNode => "source-node"
    case DestNode => "dest-node"
  }

  /** Length, first and last letter tell the names apart. */
  function Sketch(n: Name): (int, char, char) {
    match n
    case Namespace => (9, 'n', 'e')
    case Chain => (5, 'c', 'n')
    case Node => (4, 'n', 'e')
    case DeployMethod => (13, 'd', 'd')
    case Action => (6, 'a', 'n')
    case SourcePath => (11, 's', 'h')
    case DestPath => (9, 'd', 'h')
    case Compress => (8, 'c', 's')
    case CompressType => (13, 'c', 'e')
    case Output => (6, 'o', 't')
    case Decompress => (10, 'd', 's')
    case Md5 => (3, 'm', '5')
    case Input => (5, 'i', 't')
    case DeleteConsensusData => (21, 'd', 'a')
    case BlockHeight => (12, 'b', 't')
    case Crypto => (6, 'c', 'o')
    case Consensus => (9, 'c', 's')
    case Uid => (3, 'u', 'd')
    case Gid => (3, 'g', 'd')
    case SourceNode => (11, 's', 'e')
    case DestNode => (9, 'd', 'e')
  }

  lemma SketchFits(n: Name)
    ensures var s := Spelling(n); Sketch(n) == (|s|, s[0], s[|s| - 1]) && s[0] != '-' && '=' !in s
  {
  }

  lemma SpellingsDiffer()
    ensures forall m, n :: Spelling(m) == Spelling(n) ==> m == n
  {
    forall m, n | Spelling(m) == Spelling(n) ensures m == n {
      SketchFits(m);
      SketchFits(n);
    }
  }

  /** A flag is of the kind of its present value. */
  datatype Value = Text(text: string) | Number(number: int) | Switch(on: bool)

  type Values = map<Name, Value>

  datatype FlagError = BadSyntax | UnknownFlag | NeedsArgument | BadValue | ShortFlag

  datatype Parsed = Parsed(values: Values, positional: seq<string>, error: Option<FlagError>)

  /** strings.SplitN(s, "=", 2) */
  function Cut(s: string): (string, Option<string>) {
    if s == "" then ("", None)
    else if s[0] == '=' then ("", Some(s[1..]))
    else
      var (before, after) := Cut(s[1..]);
      ([s[0]] + before, after)
  }

  function ParseBool(s: string): Option<bool> {
    if s in {"1", "t", "T", "TRUE", "true", "True"} then Some(true)
    else if s in {"0", "f", "F", "FALSE", "false", "False"} then Some(false)
    else None
  }

  function Read(present: Value, text: string): Option<Value> {
    match present
    case Text(_) => Some(Text(text))
    case Number(_) => var i := ParseInt(text, true); if i.Some? then Some(Number(i.value)) else None
    case Switch(_) => var b := ParseBool(text); if b.Some? then Some(Switch(b.value)) else None
  }

  /** A flag's own value, or the next argument whatever it looks like; a switch needs neither. */
  function ParseLong(values: Values, s: string, rest: seq<string>): (r: (Values, seq<string>, Option<FlagError>))
    requires |s| >= 2
    ensures |r.1| <= |rest|
  {
    if |s| == 2 || s[2] == '-' || s[2] == '=' then (values, rest, Some(BadSyntax))
    else
      var (spelling, own) := Cut(s[2..]);
      if !exists n <- values :: Spelling(n) == spelling then (values, rest, Some(UnknownFlag))
      else
        SpellingsDiffer();
        var name :| name in values && Spelling(name) == spelling;
        Assign(values, name, own, rest)
  }

  /** The flag's value: its own, the next argument, or for a switch "true". */
  function Assign(values: Values, name: Name, own: Option<string>, rest: seq<string>)
    : (r: (Values, seq<string>, Option<FlagError>))
    requires name in values
    ensures |r.1| <= |rest|
  {
    var takesNext := own.None? && !values[name].Switch?;
    if takesNext && rest == [] then (values, rest, Some(NeedsArgument))
    else
      var text := if own.Some? then own.value else if takesNext then rest[0] else "true";
      var rest' := if takesNext then rest[1..] else rest;
      match Read(values[name], text)
      case None => (values, rest', Some(BadValue))
      case Some(v) => (values[name := v], rest', None)
  }

  function ParseArgs(p: Parsed, args: seq<string>): Parsed
    decreases |args|
  {
    if args == [] || p.error.Some? then p
    else
      var s, rest := args[0], args[1..];
      if |s| < 2 || s[0] != '-' then ParseArgs(p.(positional := p.positional + [s]), rest)
      else if s == "--" then p.(positional := p.positional + rest)
      else if s[1] == '-' then
        var (values, rest', error) := ParseLong(p.values, s, rest);
        ParseArgs(p.(values := values, error := error), rest')
      else p.(error := Some(ShortFlag))
  }

  /** The flags of one command; parsing fills them in, also up to an error. */
  class FlagSet {
    var values: Values
    var positional: seq<string>

    constructor (table: Values)
      ensures values == table && positional == []
    {
      values := table;
      positional := [];
    }

    method Parse(arguments: seq<string>) returns (error: Option<FlagError>)
      modifies this
      ensures Parsed(values, positional, error) == ParseArgs(Parsed(old(values), old(positional), None), arguments)
    {
      var args := arguments;
      error := None;
      while args != [] && error.None?
        invariant ParseArgs(Parsed(values, positional, error), args) ==
                  ParseArgs(Parsed(old(values), old(positional), None), arguments)
        decreases |args|
      {
        var s := args[0];
        args := args[1..];
        if |s| < 2 || s[0] != '-' {
          positional := positional + [s];
        } else if s == "--" {
          positional := positional + args;
          break;
        } else if s[1] == '-' {
          var (values', args', error') := ParseLong(values, s, args);
          values, args, error := values', args', error';
        } else {
          error := Some(ShortFlag);
        }
      }
    }
  }

  /***** Printing *****/

  datatype Setting = Setting(name: Name, value: Value)

  /** The arguments for one setting; a switch is only ever printed to turn it on. */
  function PrintOne(s: Setting): seq<string> {
    match s.value
    case Text(t) => ["--" + Spelling(s.name), t]
    case Number(i) => ["--" + Spelling(s.name), FormatInt(i)]
    case Switch(_) => ["--" + Spelling(s.name)]
  }

  function Print(settings: seq<Setting>): seq<string> {
    if settings == [] then [] else PrintOne(settings[0]) + Print(settings[1..])
  }

  predicate SameKind(a: Value, b: Value) {
    a.Text? == b.Text? && a.Number? == b.Number? && a.Switch? == b.Switch?
  }

  /** A setting that a command with these flags understands. */
  predicate Fits(values: Values, s: Setting) {
    && s.name in values && SameKind(values[s.name], s.value)
    && (s.value.Number? ==> IsInt64(s.value.number))
    && (s.value.Switch? ==> s.value.on)
  }

  function SetAll(values: Values, settings: seq<Setting>): Values
    decreases settings
  {
    if settings == [] then values else SetAll(values[settings[0].name := settings[0].value], settings[1..])
  }

  lemma {:induction false} CutName(n: string)
    requires '=' !in n
    ensures Cut(n) == (n, None)
  {
    if n != "" {
      CutName(n[1..]);
      assert [n[0]] + n[1..] == n;
    }
  }

  lemma ParseOne(values: Values, s: Setting, rest: seq<string>)
    requires Fits(values, s)
    ensures ParseLong(values, "--" + Spelling(s.name), PrintOne(s)[1..] + rest) == (values[s.name := s.value], rest, None)
  {
    var arg, next := "--" + Spelling(s.name), PrintOne(s)[1..] + rest;
    SketchFits(s.name);
    SpellingsDiffer();
    assert arg[2..] == Spelling(s.name) && arg[2] == Spelling(s.name)[0];
    CutName(Spelling(s.name));
    match s.value {
      case Text(t) => assert next[0] == t && next[1..] == rest;
      case Number(i) =>
        ParseFormatted(i, true);
        assert next[0] == FormatInt(i) && next[1..] == rest;
      case Switch(_) => assert next == rest;
    }
  }

  lemma {:induction false} CutBefore(n: string, text: string)
    requires '=' !in n
    ensures Cut(n + "=" + text) == (n, Some(text))
  {
    if n == "" {
      assert ("=" + text)[1..] == text;
    } else {
      assert (n + "=" + text)[1..] == n[1..] + "=" + text;
      CutBefore(n[1..], text);
      assert [n[0]] + n[1..] == n;
    }
  }

  /** A value may also follow the name after an equals sign; then the next argument is left alone, and a switch can be
   *  turned off. */
  lemma ParseEquals(values: Values, n: Name, text: string, rest: seq<string>)
    requires n in values
    ensures ParseLong(values, "--" + Spelling(n) + "=" + text, rest) ==
            match Read(values[n], text)
            case None => (values, rest, Some(BadValue))
            case Some(v) => (values[n := v], rest, None)
  {
    var arg := "--" + Spelling(n) + "=" + text;
    SketchFits(n);
    SpellingsDiffer();
    assert arg[2..] == Spelling(n) + "=" + text && arg[2] == Spelling(n)[0];
    CutBefore(Spelling(n), text);
    assert Cut(arg[2..]) == (Spelling(n), Some(text));
  }

  lemma ParseHead(p: Parsed, s: Setting, rest: seq<string>)
    requires p.error == None && Fits(p.values, s)
    ensures ParseArgs(p, PrintOne(s) + rest) == ParseArgs(p.(values := p.values[s.name := s.value]), rest)
  {
    var args := PrintOne(s) + rest;
    SketchFits(s.name);
    assert |args[0]| > 2 && args[0][0] == '-' && args[0][1] == '-';
    assert args[1..] == PrintOne(s)[1..] + rest;
    ParseOne(p.values, s, rest);
  }

  /** Printing settings and parsing them back: the parser ends up with exactly these values and the defaults
   *  for the rest, whatever the texts are; they may be empty or look like flags themselves. */
  lemma {:induction false} ParsePrinted(p: Parsed, settings: seq<Setting>)
    requires p.error == None && forall i :: 0 <= i < |settings| ==> Fits(p.values, settings[i])
    ensures ParseArgs(p, Print(settings)) == p.(values := SetAll(p.values, settings))
    decreases |settings|
  {
    if settings != [] {
      var s := settings[0];
      ParseHead(p, s, Print(settings[1..]));
      ParsePrinted(p.(values := p.values[s.name := s.value]), settings[1..]);
    }
  }

  lemma {:induction false} SetAllAppend(values: Values, a: seq<Setting>, b: seq<Setting>)
    ensures SetAll(values, a + b) == SetAll(SetAll(values, a), b)
    decreases a
  {
    if a == [] {
      assert a + b == b;
    } else {
      assert (a + b)[1..] == a[1..] + b;
      SetAllAppend(values[a[0].name := a[0].value], a[1..], b);
    }
  }

  lemma SetOne(values: Values, s: Setting)
    ensures SetAll(values, [s]) == values[s.name := s.value]
  {
    assert [s][1..] == [];
  }

  lemma SetOneMore(values: Values, a: seq<Setting>, s: Setting)
    ensures SetAll(values, a + [s]) == SetAll(values, a)[s.name := s.value]
  {
    SetAllAppend(values, a, [s]);
    SetOne(SetAll(values, a), s);
  }
}
