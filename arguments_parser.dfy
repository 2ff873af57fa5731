/** The command-line scanner (ArgumentsParser.java). Tokens are read left to
    right; a flag takes zero, one or two operands that follow it, an operand is
    never examined as a flag, unknown tokens are passed over, and a later flag
    overwrites the fields an earlier one set. Reading an operand past the end of
    the array is Java's ArrayIndexOutOfBoundsException, and a malformed number
    after `-w` or `-c` is the NumberFormatException of `Integer.valueOf`. */
module ArgumentsParser {
  import opened Wrappers
  import opened Text
  import A = Arguments

  datatype ParseError =
    | IndexOutOfBounds(index: nat)
    | NumberFormat(text: string)

  predicate IsFlag(token: string) {
    token in ["-d", "-f", "-w", "-c", "-ts", "-al", "-t"]
  }

  /** The outcome of scanning `args` from index `i` with the record `a` built so
      far: the specification of the loop in `Parse`. */
  function Scan(args: seq<string>, i: nat, a: A.Arguments): Result<A.Arguments, ParseError>
    requires i <= |args|
    decreases |args| - i
  {
    if i == |args| then Ok(a)
    else
      var arg := args[i];
      if arg == "-d" || arg == "-f" then
        if i + 1 == |args| then Err(IndexOutOfBounds(|args|))
        else
          var kind := if arg == "-d" then A.Directory else A.File;
          Scan(args, i + 2, a.(parserType := Some(kind), path := Some(args[i + 1])))
      else if arg == "-w" || arg == "-c" then
        if i + 1 == |args| then Err(IndexOutOfBounds(|args|))
        else
          match ParseInt(args[i + 1])
          case None => Err(NumberFormat(args[i + 1]))
          case Some(n) =>
            Scan(args, i + 2, if arg == "-w" then a.(warmUp := n) else a.(coolDown := n))
      else if arg == "-ts" then
        Scan(args, i + 1, a.(timestampFeature := A.Enabled))
      else if arg == "-al" then
        if i + 2 >= |args| then Err(IndexOutOfBounds(|args|))
        else Scan(args, i + 3, a.(commonLogDateStr := Some(args[i + 1]), durationTimeMsStr := Some(args[i + 2])))
      else if arg == "-t" then
        if i + 1 == |args| then Err(IndexOutOfBounds(|args|))
        else Scan(args, i + 2, a.(thread := Some(args[i + 1])))
      else
        Scan(args, i + 1, a)
  }

  /** What `parse` returns for `args`, starting from the default record. */
  function Parsed(args: seq<string>): Result<A.Arguments, ParseError> {
    Scan(args, 0, A.Default())
  }

  /** `ArgumentsParser.parse`: one index-driven pass over the tokens, where a
      flag with operands advances the index past them inside the loop body. */
  method Parse(args: seq<string>) returns (r: Result<A.Arguments, ParseError>)
    ensures r == Parsed(args)
  {
    var arguments := A.Default();
    var i := 0;
    while i < |args|
      invariant 0 <= i <= |args|
      invariant Scan(args, i, arguments) == Parsed(args)
    {
      var arg := args[i];
      if arg == "-d" || arg == "-f" {
        arguments := arguments.(parserType := Some(if arg == "-d" then A.Directory else A.File));
        i := i + 1;
        if i == |args| { return Err(IndexOutOfBounds(i)); }
        arguments := arguments.(path := Some(args[i]));
      } else if arg == "-w" || arg == "-c" {
        i := i + 1;
        if i == |args| { return Err(IndexOutOfBounds(i)); }
        var n := ParseInt(args[i]);
        if n.None? { return Err(NumberFormat(args[i])); }
        if arg == "-w" {
          arguments := arguments.(warmUp := n.value);
        } else {
          arguments := arguments.(coolDown := n.value);
        }
      } else if arg == "-ts" {
        arguments := arguments.(timestampFeature := A.Enabled);
      } else if arg == "-al" {
        i := i + 1;
        if i == |args| { return Err(IndexOutOfBounds(i)); }
        arguments := arguments.(commonLogDateStr := Some(args[i]));
        i := i + 1;
        if i == |args| { return Err(IndexOutOfBounds(i)); }
        arguments := arguments.(durationTimeMsStr := Some(args[i]));
      } else if arg == "-t" {
        i := i + 1;
        if i == |args| { return Err(IndexOutOfBounds(i)); }
        arguments := arguments.(thread := Some(args[i]));
      }
      i := i + 1;
    }
    return Ok(arguments);
  }

  // ---------------------------------------------------------------------------
  // Properties of the scan
  // ---------------------------------------------------------------------------

  /** `r` with an out-of-bounds index moved `k` places further. */
  function Moved(r: Result<A.Arguments, ParseError>, k: nat): Result<A.Arguments, ParseError> {
    match r
    case Err(IndexOutOfBounds(n)) => Err(IndexOutOfBounds(n + k))
    case _ => r
  }

  /** Scanning only depends on the tokens from the current index on; tokens in
      front only move the index of an out-of-bounds read. */
  lemma {:induction false} ScanShift(xs: seq<string>, ys: seq<string>, j: nat, a: A.Arguments)
    requires j <= |ys|
    ensures Scan(xs + ys, |xs| + j, a) == Moved(Scan(ys, j, a), |xs|)
    decreases |ys| - j
  {
    var s := xs + ys;
    if j < |ys| {
      assert s[|xs| + j] == ys[j];
      if j + 1 < |ys| { assert s[|xs| + j + 1] == ys[j + 1]; }
      if j + 2 < |ys| { assert s[|xs| + j + 2] == ys[j + 2]; }
      var arg := ys[j];
      if arg == "-d" || arg == "-f" || arg == "-w" || arg == "-c" || arg == "-t" {
        if j + 1 < |ys| {
          var kind := if arg == "-d" then A.Directory else A.File;
          ScanShift(xs, ys, j + 2, a.(parserType := Some(kind), path := Some(ys[j + 1])));
          ScanShift(xs, ys, j + 2, a.(thread := Some(ys[j + 1])));
          if ParseInt(ys[j + 1]).Some? {
            var n := ParseInt(ys[j + 1]).value;
            ScanShift(xs, ys, j + 2, a.(warmUp := n));
            ScanShift(xs, ys, j + 2, a.(coolDown := n));
          }
        }
      } else if arg == "-ts" {
        ScanShift(xs, ys, j + 1, a.(timestampFeature := A.Enabled));
      } else if arg == "-al" {
        if j + 2 < |ys| {
          ScanShift(xs, ys, j + 3, a.(commonLogDateStr := Some(ys[j + 1]), durationTimeMsStr := Some(ys[j + 2])));
        }
      } else {
        ScanShift(xs, ys, j + 1, a);
      }
    }
  }

  /** A scan of `xs` that completes without error stops exactly at the end of
      `xs`: the operands of its flags all lie inside `xs`, so appending `ys`
      continues from the record it produced. */
  lemma {:induction false} ScanCompose(xs: seq<string>, ys: seq<string>, i: nat, a: A.Arguments)
    requires i <= |xs|
    requires Scan(xs, i, a).Ok?
    ensures Scan(xs + ys, i, a) == Scan(xs + ys, |xs|, Scan(xs, i, a).value)
    decreases |xs| - i
  {
    var s := xs + ys;
    if i < |xs| {
      assert s[i] == xs[i];
      if i + 1 < |xs| { assert s[i + 1] == xs[i + 1]; }
      if i + 2 < |xs| { assert s[i + 2] == xs[i + 2]; }
      var arg := xs[i];
      if arg == "-d" || arg == "-f" {
        var kind := if arg == "-d" then A.Directory else A.File;
        ScanCompose(xs, ys, i + 2, a.(parserType := Some(kind), path := Some(xs[i + 1])));
      } else if arg == "-w" || arg == "-c" {
        var n := ParseInt(xs[i + 1]).value;
        ScanCompose(xs, ys, i + 2, if arg == "-w" then a.(warmUp := n) else a.(coolDown := n));
      } else if arg == "-ts" {
        ScanCompose(xs, ys, i + 1, a.(timestampFeature := A.Enabled));
      } else if arg == "-al" {
        ScanCompose(xs, ys, i + 3, a.(commonLogDateStr := Some(xs[i + 1]), durationTimeMsStr := Some(xs[i + 2])));
      } else if arg == "-t" {
        ScanCompose(xs, ys, i + 2, a.(thread := Some(xs[i + 1])));
      } else {
        ScanCompose(xs, ys, i + 1, a);
      }
    }
  }

  /** Parsing `xs + ys` where `xs` parses resumes at `ys` with `xs`'s record. */
  lemma ParsedAppend(xs: seq<string>, ys: seq<string>)
    requires Parsed(xs).Ok?
    ensures Parsed(xs + ys) == Scan(xs + ys, |xs|, Parsed(xs).value)
  {
    ScanCompose(xs, ys, 0, A.Default());
  }

  /** The scan of `xs` followed by a flag and its operand reaches the flag
      with the record that `xs` alone yields. */
  lemma FlagWithOperand(xs: seq<string>, flag: string, x: string, ys: seq<string>)
    requires Parsed(xs).Ok?
    ensures var s := xs + [flag, x] + ys;
      && |xs| + 2 <= |s| && s[|xs|] == flag && s[|xs| + 1] == x
      && Parsed(s) == Scan(s, |xs|, Parsed(xs).value)
  {
    var s := xs + [flag, x] + ys;
    ParsedAppend(xs, [flag, x] + ys);
    assert s == xs + ([flag, x] + ys);
  }

  /** `-d X` selects directory mode on path X and `-f X` a single file X. The
      operand is consumed whatever it looks like, even like a flag, and the scan
      resumes after it. */
  lemma PathFlags(xs: seq<string>, x: string, ys: seq<string>)
    requires Parsed(xs).Ok?
    ensures var s := xs + ["-d", x] + ys;
      Parsed(s) == Scan(s, |xs| + 2, Parsed(xs).value.(parserType := Some(A.Directory), path := Some(x)))
    ensures var s := xs + ["-f", x] + ys;
      Parsed(s) == Scan(s, |xs| + 2, Parsed(xs).value.(parserType := Some(A.File), path := Some(x)))
  {
    FlagWithOperand(xs, "-d", x, ys);
    FlagWithOperand(xs, "-f", x, ys);
  }

  /** `-w N` stores the integer value of N as the warm-up; an operand that is
      not a number is a format error, whatever follows it. */
  lemma WarmUpFlag(xs: seq<string>, t: string, ys: seq<string>)
    requires Parsed(xs).Ok?
    ensures var s := xs + ["-w", t] + ys;
      Parsed(s) == match ParseInt(t)
                   case Some(n) => Scan(s, |xs| + 2, Parsed(xs).value.(warmUp := n))
                   case None => Err(NumberFormat(t))
  {
    FlagWithOperand(xs, "-w", t, ys);
  }

  /** `-c N` stores the integer value of N as the cool-down. */
  lemma CoolDownFlag(xs: seq<string>, t: string, ys: seq<string>)
    requires Parsed(xs).Ok?
    ensures var s := xs + ["-c", t] + ys;
      Parsed(s) == match ParseInt(t)
                   case Some(n) => Scan(s, |xs| + 2, Parsed(xs).value.(coolDown := n))
                   case None => Err(NumberFormat(t))
  {
    FlagWithOperand(xs, "-c", t, ys);
  }

  /** `-ts` switches on the timestamped mode and takes no operand. */
  lemma TimestampFlag(xs: seq<string>, ys: seq<string>)
    requires Parsed(xs).Ok?
    ensures var s := xs + ["-ts"] + ys;
      Parsed(s) == Scan(s, |xs| + 1, Parsed(xs).value.(timestampFeature := A.Enabled))
  {
    var s := xs + ["-ts"] + ys;
    ParsedAppend(xs, ["-ts"] + ys);
    assert s == xs + (["-ts"] + ys) && s[|xs|] == "-ts";
  }

  /** `-al D M` consumes two operands, the access-log date text and the
      duration text. */
  lemma AccessLogFlag(xs: seq<string>, d: string, m: string, ys: seq<string>)
    requires Parsed(xs).Ok?
    ensures var s := xs + ["-al", d, m] + ys;
      Parsed(s) == Scan(s, |xs| + 3, Parsed(xs).value.(commonLogDateStr := Some(d), durationTimeMsStr := Some(m)))
  {
    var s := xs + ["-al", d, m] + ys;
    ParsedAppend(xs, ["-al", d, m] + ys);
    assert s == xs + (["-al", d, m] + ys);
    assert s[|xs|] == "-al" && s[|xs| + 1] == d && s[|xs| + 2] == m;
  }

  /** `-t X` consumes the thread name X. */
  lemma ThreadFlag(xs: seq<string>, x: string, ys: seq<string>)
    requires Parsed(xs).Ok?
    ensures var s := xs + ["-t", x] + ys;
      Parsed(s) == Scan(s, |xs| + 2, Parsed(xs).value.(thread := Some(x)))
  {
    FlagWithOperand(xs, "-t", x, ys);
  }

  /** A later `-t` replaces the thread set by any earlier one. */
  lemma LaterThreadWins(xs: seq<string>, first: string, mid: seq<string>, last: string)
    requires Parsed(xs + ["-t", first] + mid).Ok?
    ensures Parsed(xs + ["-t", first] + mid + ["-t", last]).Ok?
    ensures Parsed(xs + ["-t", first] + mid + ["-t", last]).value.thread == Some(last)
  {
    var p := xs + ["-t", first] + mid;
    ThreadFlag(p, last, []);
    assert p + ["-t", last] + [] == p + ["-t", last];
  }

  /** A token that is not a flag changes nothing, apart from moving the index of
      a later out-of-bounds read by one. */
  lemma UnknownTokenIgnored(xs: seq<string>, token: string, ys: seq<string>)
    requires Parsed(xs).Ok?
    requires !IsFlag(token)
    ensures Parsed(xs + [token] + ys) == Moved(Parsed(xs + ys), 1)
  {
    var a := Parsed(xs).value;
    var s := xs + [token] + ys;
    ParsedAppend(xs, [token] + ys);
    ParsedAppend(xs, ys);
    assert s == xs + ([token] + ys) && s[|xs|] == token;
    assert s == (xs + [token]) + ys;
    ScanShift(xs + [token], ys, 0, a);
    ScanShift(xs, ys, 0, a);
  }

  /** A flag that needs an operand but ends the command line reads one past the
      end of the array; so does `-al` with a single operand. */
  lemma MissingOperand(xs: seq<string>, flag: string, d: string)
    requires Parsed(xs).Ok?
    requires flag in ["-d", "-f", "-w", "-c", "-al", "-t"]
    ensures Parsed(xs + [flag]) == Err(IndexOutOfBounds(|xs| + 1))
    ensures Parsed(xs + ["-al", d]) == Err(IndexOutOfBounds(|xs| + 2))
  {
    ParsedAppend(xs, [flag]);
    ParsedAppend(xs, ["-al", d]);
    assert (xs + [flag])[|xs|] == flag;
    assert (xs + ["-al", d])[|xs|] == "-al";
  }

  /** A command line without any flag yields the default record: no path, no
      parser type, timestamps disabled, no access-log window, no thread
      filter, no warm-up and no cool-down. */
  lemma {:induction false} NoFlagsGiveDefaults(args: seq<string>, i: nat)
    requires i <= |args|
    requires forall k :: i <= k < |args| ==> !IsFlag(args[k])
    ensures Scan(args, i, A.Default()) == Ok(A.Default())
    ensures A.Default().path.None? && A.Default().parserType.None?
    ensures A.Default().timestampFeature == A.Disabled
    ensures A.Default().commonLogDateStr.None? && A.Default().durationTimeMsStr.None?
    ensures A.Default().thread.None?
    ensures A.Default().warmUp == 0 && A.Default().coolDown == 0
    decreases |args| - i
  {
    if i < |args| {
      assert !IsFlag(args[i]);
      NoFlagsGiveDefaults(args, i + 1);
    }
  }
}
