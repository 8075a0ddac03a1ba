/** The argument loop of `Main`: a left-to-right scan in which `-x`, `-y` and `-p`
    consume the token after them, `-w` is a switch, and any other token stops the
    scan with the usage line. A flag with nothing after it, and a width or height
    that `int.Parse` rejects, end the program with an unhandled exception. */
module Arguments {
  import opened Types
  import opened Int32Text

  /** What the loop collects. An absent `-p` leaves the program path null. */
  datatype Params = Params(width: int32, height: int32, programPath: Option<string>, waitForProgram: bool)

  /** The values the variables hold before the loop. */
  const Defaults: Params := Params(0, 0, None, false)

  /** The exceptions the loop can raise, which no handler catches: `args[++i]` past
      the end, and `int.Parse` on a token that is not a 32-bit integer. */
  datatype Crash = MissingValue(flag: string) | NotAnInteger(token: string)

  datatype ParseResult =
    | Parsed(params: Params)
    | Unrecognised(token: string)   // the usage line is printed and Main returns
    | Crashed(crash: Crash)

  predicate TakesValue(token: string)
  {
    token == "-x" || token == "-y" || token == "-p"
  }

  predicate IsFlag(token: string)
  {
    TakesValue(token) || token == "-w"
  }

  /** The scan over the tokens not yet consumed, from the values collected so far. */
  function Scan(rest: seq<string>, p: Params): ParseResult
  {
    if rest == [] then Parsed(p)
    else
      var token := rest[0];
      if token == "-w" then Scan(rest[1..], p.(waitForProgram := true))
      else if !TakesValue(token) then Unrecognised(token)
      else if |rest| == 1 then Crashed(MissingValue(token))
      else match NextParams(token, rest[1], p)
        case None => Crashed(NotAnInteger(rest[1]))
        case Some(next) => Scan(rest[2..], next)
  }

  /** What a flag that takes a value does with the token after it: `-p` stores it as
      the program path, `-x` and `-y` store its integer value, or fail to parse it. */
  function NextParams(flag: string, value: string, p: Params): Option<Params>
    requires TakesValue(flag)
  {
    if flag == "-p" then Some(p.(programPath := Some(value)))
    else match ParseInt32(value)
      case None => None
      case Some(n) => Some(if flag == "-x" then p.(width := n) else p.(height := n))
  }

  function Parse(args: seq<string>): ParseResult
  {
    Scan(args, Defaults)
  }

  /** The loop itself, with its index jumps. */
  method ParseArguments(args: seq<string>) returns (r: ParseResult)
    ensures r == Parse(args)
  {
    var width: int32, height: int32 := 0, 0;
    var programPath: Option<string> := None;
    var waitForProgram := false;
    var i := 0;
    while i < |args|
      invariant 0 <= i <= |args|
      invariant Scan(args[i..], Params(width, height, programPath, waitForProgram)) == Parse(args)
    {
      var token := args[i];
      assert args[i..][0] == token;
      if token == "-x" {
        i := i + 1;
        if i == |args| {
          return Crashed(MissingValue(token));
        }
        var n := ParseInt32(args[i]);
        if n.None? {
          return Crashed(NotAnInteger(args[i]));
        }
        width := n.value;
      } else if token == "-y" {
        i := i + 1;
        if i == |args| {
          return Crashed(MissingValue(token));
        }
        var n := ParseInt32(args[i]);
        if n.None? {
          return Crashed(NotAnInteger(args[i]));
        }
        height := n.value;
      } else if token == "-p" {
        i := i + 1;
        if i == |args| {
          return Crashed(MissingValue(token));
        }
        programPath := Some(args[i]);
      } else if token == "-w" {
        waitForProgram := true;
      } else {
        return Unrecognised(token);
      }
      assert args[i..][1..] == args[i + 1..];
      i := i + 1;
    }
    return Parsed(Params(width, height, programPath, waitForProgram));
  }

  /** Scanning is compositional: once a prefix of the tokens scans completely, the
      rest is scanned from the values that prefix left. */
  lemma {:induction false} ScanAppend(a: seq<string>, b: seq<string>, p: Params, q: Params)
    requires Scan(a, p) == Parsed(q)
    ensures Scan(a + b, p) == Scan(b, q)
  {
    if a == [] {
      assert a + b == b;
    } else {
      var token := a[0];
      assert (a + b)[0] == token;
      if token == "-w" {
        assert (a + b)[1..] == a[1..] + b;
        ScanAppend(a[1..], b, p.(waitForProgram := true), q);
      } else {
        assert TakesValue(token) && |a| >= 2;
        assert (a + b)[1] == a[1];
        assert (a + b)[2..] == a[2..] + b;
        var next := NextParams(token, a[1], p);
        assert next.Some?;
        assert Scan(a, p) == Scan(a[2..], next.value);
        assert Scan(a + b, p) == Scan(a[2..] + b, next.value);
        ScanAppend(a[2..], b, next.value, q);
      }
    }
  }

  /** After any complete prefix, each recognised flag sets its own variable and no
      other, whatever an earlier occurrence set; the scan then goes on from there. */
  lemma FlagSetsOnlyItsOwnVariable(a: seq<string>, p: Params, value: string, b: seq<string>)
    requires Parse(a) == Parsed(p)
    ensures Parse(a + ["-w"] + b) == Scan(b, p.(waitForProgram := true))
    ensures Parse(a + ["-p", value] + b) == Scan(b, p.(programPath := Some(value)))
    ensures ParseInt32(value).Some? ==>
              Parse(a + ["-x", value] + b) == Scan(b, p.(width := ParseInt32(value).value)) &&
              Parse(a + ["-y", value] + b) == Scan(b, p.(height := ParseInt32(value).value))
  {
    ValueFlagStep(a, p, "-p", value, b);
    if ParseInt32(value).Some? {
      ValueFlagStep(a, p, "-x", value, b);
      ValueFlagStep(a, p, "-y", value, b);
    }
    assert a + ["-w"] + b == a + (["-w"] + b);
    assert (["-w"] + b)[1..] == b;
    ScanAppend(a, ["-w"] + b, Defaults, p);
  }

  lemma ValueFlagStep(a: seq<string>, p: Params, flag: string, value: string, b: seq<string>)
    requires Parse(a) == Parsed(p)
    requires TakesValue(flag) && NextParams(flag, value, p).Some?
    ensures Parse(a + [flag, value] + b) == Scan(b, NextParams(flag, value, p).value)
  {
    var rest := [flag, value] + b;
    assert a + [flag, value] + b == a + rest;
    assert rest[0] == flag && rest[1] == value && rest[2..] == b;
    assert Scan(rest, p) == Scan(b, NextParams(flag, value, p).value);
    ScanAppend(a, rest, Defaults, p);
  }

  /** After any complete prefix, a token that is not a flag stops the scan with the
      usage line, whatever follows it. */
  lemma UnrecognisedTokenStops(a: seq<string>, p: Params, token: string, b: seq<string>)
    requires Parse(a) == Parsed(p)
    requires !IsFlag(token)
    ensures Parse(a + [token] + b) == Unrecognised(token)
  {
    assert a + [token] + b == a + ([token] + b);
    ScanAppend(a, [token] + b, Defaults, p);
  }

  /** After any complete prefix, `-x`, `-y` or `-p` as the last token, or `-x` or `-y`
      followed by a token `int.Parse` rejects, raises the unhandled exception. */
  lemma BadValueCrashes(a: seq<string>, p: Params, flag: string, value: string, b: seq<string>)
    requires Parse(a) == Parsed(p)
    requires TakesValue(flag)
    ensures Parse(a + [flag]) == Crashed(MissingValue(flag))
    ensures flag != "-p" && ParseInt32(value).None? ==>
              Parse(a + [flag, value] + b) == Crashed(NotAnInteger(value))
  {
    ScanAppend(a, [flag], Defaults, p);
    assert a + [flag, value] + b == a + ([flag, value] + b);
    ScanAppend(a, [flag, value] + b, Defaults, p);
  }
}
