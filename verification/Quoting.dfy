/** The ssh arguments of a deploy target and the one shell-tokenized string they are handed to Nix
    in (crates/mandala-deploy/src/lib.rs). */
module Quoting {
  import opened Wrappers

  /** The merged settings the arguments are made from; `port` is a 16-bit number. */
  datatype Settings = Settings(port: Option<nat>, identityFile: Option<string>, sshOpts: seq<string>)

  function Decimal(n: nat): string {
    var digit := ['0' + (n % 10) as char];
    if n < 10 then digit else Decimal(n / 10) + digit
  }

  function Value(digits: string): nat
    requires forall i :: 0 <= i < |digits| ==> '0' <= digits[i] <= '9'
  {
    if digits == [] then 0 else 10 * Value(digits[..|digits| - 1]) + (digits[|digits| - 1] - '0') as nat
  }

  /** A number is written in decimal digits, without a leading zero. */
  lemma {:induction false} DecimalWritesTheNumber(n: nat)
    ensures forall i :: 0 <= i < |Decimal(n)| ==> '0' <= Decimal(n)[i] <= '9'
    ensures Value(Decimal(n)) == n && (n > 0 ==> Decimal(n)[0] != '0') && |Decimal(0)| == 1
    decreases n
  {
    var digits := Decimal(n);
    if n >= 10 {
      DecimalWritesTheNumber(n / 10);
    }
    assert digits[..|digits| - 1] == if n < 10 then [] else Decimal(n / 10);
  }

  /** The declared endpoint: port, then identity. */
  function Endpoint(s: Settings): seq<string> {
    ["-p", Decimal(if s.port.Some? then s.port.value else 22)]
    + if s.identityFile.Some?
      then ["-i", s.identityFile.value, "-o", "IdentitiesOnly=yes", "-o", "IdentityAgent=none"]
      else []
  }

  /** `ssh_args`. */
  method SshArgs(s: Settings) returns (args: seq<string>)
    ensures args == Endpoint(s) + s.sshOpts
    ensures |args| >= 2 && args[0] == "-p" && args[1] == Decimal(if s.port.Some? then s.port.value else 22)
    ensures s.identityFile.None? ==> args[2..] == s.sshOpts
    ensures s.identityFile.Some? ==>
              args[2..] ==
              ["-i", s.identityFile.value, "-o", "IdentitiesOnly=yes", "-o", "IdentityAgent=none"] + s.sshOpts
  {
    args := ["-p", Decimal(if s.port.Some? then s.port.value else 22)];
    if s.identityFile.Some? {
      args := args + ["-i", s.identityFile.value, "-o", "IdentitiesOnly=yes", "-o", "IdentityAgent=none"];
    }
    args := args + s.sshOpts;
  }

  // ---- quoting ----

  predicate Safe(c: char) {
    || '0' <= c <= '9' || 'a' <= c <= 'z' || 'A' <= c <= 'Z'
    || c == '_' || c == '-' || c == '.' || c == '/' || c == ':' || c == '=' || c == '@'
  }

  /** `value.replace('\'', "'\"'\"'")`. */
  function Escape(value: string): (r: string)
    ensures |r| >= |value|
  {
    if value == [] then []
    else (if value[0] == '\'' then "'\"'\"'" else [value[0]]) + Escape(value[1..])
  }

  /** Only words that need it are quoted. */
  function ShellWord(value: string): (r: string)
    ensures r == value <==> value != [] && forall c :: c in value ==> Safe(c)
  {
    if value != [] && forall c :: c in value ==> Safe(c) then value else "'" + Escape(value) + "'"
  }

  /** Paths, options, hosts and addresses are left as they are. */
  lemma OrdinaryWordsStayBare(w: string)
    requires w != []
    requires forall c :: c in w ==> '0' <= c <= '9' || 'a' <= c <= 'z' || 'A' <= c <= 'Z' || c in "_-./:=@"
    ensures ShellWord(w) == w
  {
  }

  function Words(args: seq<string>): string {
    if args == [] then []
    else if |args| == 1 then ShellWord(args[0])
    else ShellWord(args[0]) + " " + Words(args[1..])
  }

  function NixSshOpts(s: Settings): string {
    Words(Endpoint(s) + s.sshOpts)
  }

  // ---- the shell's side ----

  datatype Mode = Bare | Single | Double

  /** Unquoted characters that would make the text more than a list of literal words: operators,
      expansions, patterns, comments (section 2.2 of the POSIX Shell Command Language). */
  predicate Special(c: char) {
    c in "|&;<>()$`*?[#~%\n"
  }

  /** Splits a command string into words under the quoting rules of section 2.2: backslash,
      single quotes (2.2.2) and double quotes (2.2.3). `None` where quoting is left open or an
      unquoted or double-quoted character would be expanded or taken for an operator. */
  function Scan(s: string, mode: Mode, word: Option<string>): Option<seq<string>>
    decreases |s|
  {
    var sofar := if word.Some? then word.value else [];
    if s == [] then
      if !mode.Bare? then None else Some(if word.Some? then [word.value] else [])
    else match mode
      case Single =>
        if s[0] == '\'' then Scan(s[1..], Bare, Some(sofar)) else Scan(s[1..], Single, Some(sofar + [s[0]]))
      case Double =>
        if s[0] == '"' then Scan(s[1..], Bare, Some(sofar))
        else if s[0] == '$' || s[0] == '`' then None
        else if s[0] == '\\' && |s| > 1 && s[1] in "$`\"\\" then Scan(s[2..], Double, Some(sofar + [s[1]]))
        else if s[0] == '\\' && |s| > 1 && s[1] == '\n' then Scan(s[2..], Double, Some(sofar))
        else Scan(s[1..], Double, Some(sofar + [s[0]]))
      case Bare =>
        if s[0] == ' ' || s[0] == '\t' then
          var rest := Scan(s[1..], Bare, None);
          if rest.None? then None else Some((if word.Some? then [word.value] else []) + rest.value)
        else if s[0] == '\'' then Scan(s[1..], Single, Some(sofar))
        else if s[0] == '"' then Scan(s[1..], Double, Some(sofar))
        else if s[0] == '\\' then
          if |s| == 1 then None
          else if s[1] == '\n' then Scan(s[2..], Bare, word)
          else Scan(s[2..], Bare, Some(sofar + [s[1]]))
        else if Special(s[0]) then None
        else Scan(s[1..], Bare, Some(sofar + [s[0]]))
  }

  function Tokenize(s: string): Option<seq<string>> {
    Scan(s, Bare, None)
  }

  // ---- the round trip ----

  lemma SafeCharIsLiteral(c: char, rest: string, word: Option<string>)
    requires Safe(c)
    ensures Scan([c] + rest, Bare, word) == Scan(rest, Bare, Some((if word.Some? then word.value else []) + [c]))
  {
    assert ([c] + rest)[0] == c && ([c] + rest)[1..] == rest;
  }

  lemma {:induction false} SafeTextIsLiteral(w: string, rest: string, sofar: string)
    requires forall c :: c in w ==> Safe(c)
    ensures Scan(w + rest, Bare, Some(sofar)) == Scan(rest, Bare, Some(sofar + w))
    decreases |w|
  {
    if w == [] {
      assert w + rest == rest && sofar + w == sofar;
    } else {
      SafeCharIsLiteral(w[0], w[1..] + rest, Some(sofar));
      assert w + rest == [w[0]] + (w[1..] + rest);
      SafeTextIsLiteral(w[1..], rest, sofar + [w[0]]);
      assert sofar + [w[0]] + w[1..] == sofar + w;
    }
  }

  /** One quoted single quote: out of the quotes, a double-quoted quote, and back in. */
  lemma QuoteIsLiteral(rest: string, sofar: string)
    ensures Scan("'\"'\"'" + rest, Single, Some(sofar)) == Scan(rest, Single, Some(sofar + ['\'']))
  {
    var a, b, c, d := "\"'\"'" + rest, "'\"'" + rest, "\"'" + rest, "'" + rest;
    assert ("'\"'\"'" + rest)[1..] == a && a[1..] == b && b[1..] == c && c[1..] == d && d[1..] == rest;
    assert Scan(d, Bare, Some(sofar + ['\''])) == Scan(rest, Single, Some(sofar + ['\'']));
    assert Scan(c, Double, Some(sofar + ['\''])) == Scan(d, Bare, Some(sofar + ['\'']));
    assert Scan(b, Double, Some(sofar)) == Scan(c, Double, Some(sofar + ['\'']));
    assert Scan(a, Bare, Some(sofar)) == Scan(b, Double, Some(sofar));
  }

  lemma {:induction false} EscapedTextIsLiteral(value: string, rest: string, sofar: string)
    ensures Scan(Escape(value) + "'" + rest, Single, Some(sofar)) == Scan(rest, Bare, Some(sofar + value))
    decreases |value|
  {
    if value == [] {
      assert ([] + "'" + rest)[1..] == rest && sofar + value == sofar;
    } else {
      var tail := Escape(value[1..]) + "'" + rest;
      EscapedTextIsLiteral(value[1..], rest, sofar + [value[0]]);
      assert sofar + [value[0]] + value[1..] == sofar + value;
      EscapeOne(value, rest);
      if value[0] == '\'' {
        QuoteIsLiteral(tail, sofar);
      } else {
        OrdinaryIsLiteral(value[0], tail, sofar);
      }
    }
  }

  lemma EscapeOne(value: string, rest: string)
    requires value != []
    ensures Escape(value) + "'" + rest ==
            (if value[0] == '\'' then "'\"'\"'" else [value[0]]) + (Escape(value[1..]) + "'" + rest)
  {
  }

  lemma OrdinaryIsLiteral(c: char, rest: string, sofar: string)
    requires c != '\''
    ensures Scan([c] + rest, Single, Some(sofar)) == Scan(rest, Single, Some(sofar + [c]))
  {
    assert ([c] + rest)[1..] == rest;
  }

  lemma SafeWordIsLiteral(value: string, rest: string)
    requires value != [] && forall c :: c in value ==> Safe(c)
    ensures Scan(value + rest, Bare, None) == Scan(rest, Bare, Some(value))
  {
    var tail := value[1..] + rest;
    assert value + rest == [value[0]] + tail;
    SafeCharIsLiteral(value[0], tail, None);
    SafeTextIsLiteral(value[1..], rest, [value[0]]);
    assert [value[0]] + value[1..] == value && [] + [value[0]] == [value[0]];
  }

  lemma QuotedWordIsLiteral(value: string, rest: string)
    ensures Scan("'" + Escape(value) + "'" + rest, Bare, None) == Scan(rest, Bare, Some(value))
  {
    var body := Escape(value) + "'" + rest;
    var s := "'" + body;
    EscapedTextIsLiteral(value, rest, []);
    assert s[1..] == body && [] + value == value;
    assert "'" + Escape(value) + "'" + rest == s;
  }

  lemma WordIsLiteral(value: string, rest: string)
    ensures Scan(ShellWord(value) + rest, Bare, None) == Scan(rest, Bare, Some(value))
  {
    if value != [] && forall c :: c in value ==> Safe(c) {
      SafeWordIsLiteral(value, rest);
    } else {
      QuotedWordIsLiteral(value, rest);
    }
  }

  /** Tokenizing the quoted words gives back exactly the arguments, whatever they contain. */
  lemma {:induction false} TokenizingUndoesQuoting(args: seq<string>)
    ensures Tokenize(Words(args)) == Some(args)
    decreases |args|
  {
    if |args| == 1 {
      WordIsLiteral(args[0], []);
      assert ShellWord(args[0]) + [] == ShellWord(args[0]) && args == [args[0]];
    } else if args != [] {
      var rest := " " + Words(args[1..]);
      WordIsLiteral(args[0], rest);
      assert Words(args) == ShellWord(args[0]) + rest && rest[1..] == Words(args[1..]);
      TokenizingUndoesQuoting(args[1..]);
      assert [args[0]] + args[1..] == args;
    }
  }

  /** The string handed to Nix is tokenized to the very arguments ssh is called with directly. */
  lemma NixSeesTheSshArguments(s: Settings)
    ensures Tokenize(NixSshOpts(s)) == Some(Endpoint(s) + s.sshOpts)
  {
    TokenizingUndoesQuoting(Endpoint(s) + s.sshOpts);
  }

  /** Distinct argument lists never quote to the same string. */
  lemma QuotingIsInjective(a: seq<string>, b: seq<string>)
    ensures Words(a) == Words(b) <==> a == b
  {
    TokenizingUndoesQuoting(a);
    TokenizingUndoesQuoting(b);
  }

  // ---- which setting wins ----

  /** The operand of the first `flag` among the arguments: ssh keeps the first value it is given. */
  function FirstOperand(args: seq<string>, flag: string): Option<string> {
    if |args| < 2 then None
    else if args[0] == flag then Some(args[1])
    else FirstOperand(args[1..], flag)
  }

  /** As Nix tokenizes them, the arguments set the declared port and identity, whatever the
      free-form options say. */
  lemma DeclaredEndpointWins(s: Settings)
    ensures Tokenize(NixSshOpts(s)).Some?
    ensures FirstOperand(Tokenize(NixSshOpts(s)).value, "-p")
            == Some(Decimal(if s.port.Some? then s.port.value else 22))
    ensures s.identityFile.Some? ==> FirstOperand(Tokenize(NixSshOpts(s)).value, "-i") == s.identityFile
  {
    NixSeesTheSshArguments(s);
    if s.identityFile.Some? {
      var args := Endpoint(s) + s.sshOpts;
      DecimalIsNoFlag(if s.port.Some? then s.port.value else 22);
      assert args[1..][1..][0] == "-i" && args[1..][1..][1] == s.identityFile.value;
      assert FirstOperand(args[1..][1..], "-i") == s.identityFile;
    }
  }

  lemma DecimalIsNoFlag(n: nat)
    ensures Decimal(n) != "-i" && Decimal(n) != [] && '0' <= Decimal(n)[0] <= '9'
  {
    if n >= 10 {
      DecimalIsNoFlag(n / 10);
    }
  }
}
