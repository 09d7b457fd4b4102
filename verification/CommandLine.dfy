/** The Windows command-line printer and its partner, the Microsoft
    "Parsing C command-line arguments" rules it has to survive. */
module CommandLine {
  import opened Wrappers

  /** A UTF-16 code unit. */
  type Unit = u: nat | u < 0x1_0000

  const NUL: Unit := 0x00
  const TAB: Unit := 0x09
  const SPACE: Unit := 0x20
  const QUOTE: Unit := 0x22
  const SLASH: Unit := 0x5C

  function Slashes(n: nat): (s: seq<Unit>)
    ensures |s| == n
    ensures forall i | 0 <= i < n :: s[i] == SLASH
  {
    seq(n, _ => SLASH)
  }

  // ---------------------------------------------------------------- printer

  /** What the printer emits for the rest of an argument when `held`
      backslashes were read but not written yet, up to the closing quote. */
  function Escaped(arg: seq<Unit>, held: nat): seq<Unit>
    decreases |arg|
  {
    if arg == [] then Slashes(2 * held) + [QUOTE]
    else if arg[0] == SLASH then Escaped(arg[1..], held + 1)
    else if arg[0] == QUOTE then Slashes(2 * held + 1) + [QUOTE] + Escaped(arg[1..], 0)
    else Slashes(held) + [arg[0]] + Escaped(arg[1..], 0)
  }

  function Quoted(arg: seq<Unit>): seq<Unit> {
    [QUOTE] + Escaped(arg, 0)
  }

  /** Every argument after the executable, each one behind a space. */
  function QuotedArguments(args: seq<seq<Unit>>): seq<Unit> {
    if args == [] then [] else [SPACE] + Quoted(args[0]) + QuotedArguments(args[1..])
  }

  function Line(executable: seq<Unit>, args: seq<seq<Unit>>): seq<Unit> {
    Quoted(executable) + QuotedArguments(args)
  }

  // ----------------------------------------------------------------- parser

  predicate IsBlank(c: Unit) {
    c == SPACE || c == TAB
  }

  /** One argument of the Microsoft rules: `slashes` backslashes are pending,
      `inQuotes` says whether blanks are literal. Backslashes are literal unless a
      quote follows; then 2n give n and the quote delimits, 2n+1 give n and
      the quote is literal; a doubled quote inside quotes is a literal quote.
      Returns the argument and what is left of the line. */
  function ParseOne(line: seq<Unit>, inQuotes: bool, slashes: nat): (r: (seq<Unit>, seq<Unit>))
    ensures |r.1| <= |line|
    ensures line != [] && (inQuotes || !IsBlank(line[0])) ==> |r.1| < |line|
    decreases |line|
  {
    if line == [] then (Slashes(slashes), [])
    else if line[0] == SLASH then ParseOne(line[1..], inQuotes, slashes + 1)
    else if line[0] == QUOTE then
      if slashes % 2 == 1 then
        Prepend(Slashes(slashes / 2) + [QUOTE], ParseOne(line[1..], inQuotes, 0))
      else if inQuotes && |line| > 1 && line[1] == QUOTE then
        Prepend(Slashes(slashes / 2) + [QUOTE], ParseOne(line[2..], inQuotes, 0))
      else
        Prepend(Slashes(slashes / 2), ParseOne(line[1..], !inQuotes, 0))
    else if !inQuotes && IsBlank(line[0]) then (Slashes(slashes), line)
    else Prepend(Slashes(slashes) + [line[0]], ParseOne(line[1..], inQuotes, 0))
  }

  function Prepend(head: seq<Unit>, r: (seq<Unit>, seq<Unit>)): (seq<Unit>, seq<Unit>) {
    (head + r.0, r.1)
  }

  function SkipBlanks(line: seq<Unit>): (r: seq<Unit>)
    ensures |r| <= |line|
    ensures r != [] ==> !IsBlank(r[0])
  {
    if line != [] && IsBlank(line[0]) then SkipBlanks(line[1..]) else line
  }

  /** All arguments behind the program name. */
  function ParseArguments(line: seq<Unit>): seq<seq<Unit>>
    decreases |line|
  {
    var rest := SkipBlanks(line);
    if rest == [] then []
    else
      var (arg, after) := ParseOne(rest, false, 0);
      [arg] + ParseArguments(after)
  }

  /** The program-name rule: quotes only toggle, backslashes are ordinary. */
  function ParseProgram(line: seq<Unit>, inQuotes: bool): (r: (seq<Unit>, seq<Unit>))
  {
    if line == [] then ([], [])
    else if line[0] == QUOTE then ParseProgram(line[1..], !inQuotes)
    else if !inQuotes && IsBlank(line[0]) then ([], line)
    else Prepend([line[0]], ParseProgram(line[1..], inQuotes))
  }

  function ParseLine(line: seq<Unit>): seq<seq<Unit>> {
    var (program, rest) := ParseProgram(line, false);
    [program] + ParseArguments(rest)
  }

  // ------------------------------------------------------------- round trip

  /** A run of pending backslashes in front of the text just counts. */
  lemma {:induction false} ParseSlashes(n: nat, line: seq<Unit>, inQuotes: bool, slashes: nat)
    ensures ParseOne(Slashes(n) + line, inQuotes, slashes) == ParseOne(line, inQuotes, slashes + n)
  {
    if n == 0 {
      assert Slashes(0) + line == line;
    } else {
      var text := Slashes(n) + line;
      assert text[0] == SLASH && text[1..] == Slashes(n - 1) + line;
      ParseSlashes(n - 1, line, inQuotes, slashes + 1);
    }
  }

  /** What may follow a printed argument: the end or a space. */
  predicate Separated(tail: seq<Unit>) {
    tail == [] || tail[0] == SPACE
  }

  /** Held backslashes in front of an ordinary character are literal. */
  lemma ParseLiteral(n: nat, c: Unit, rest: seq<Unit>)
    requires c != SLASH && c != QUOTE
    ensures ParseOne(Slashes(n) + [c] + rest, true, 0) == Prepend(Slashes(n) + [c], ParseOne(rest, true, 0))
  {
    var line := [c] + rest;
    assert Slashes(n) + [c] + rest == Slashes(n) + line && line[1..] == rest;
    ParseSlashes(n, line, true, 0);
  }

  /** An odd run in front of a quote: half of it, and a literal quote. */
  lemma ParseEscapedQuote(n: nat, rest: seq<Unit>)
    ensures ParseOne(Slashes(2 * n + 1) + [QUOTE] + rest, true, 0)
         == Prepend(Slashes(n) + [QUOTE], ParseOne(rest, true, 0))
  {
    var line := [QUOTE] + rest;
    assert Slashes(2 * n + 1) + [QUOTE] + rest == Slashes(2 * n + 1) + line && line[1..] == rest;
    ParseSlashes(2 * n + 1, line, true, 0);
  }

  /** An even run in front of the closing quote: half of it, and the end. */
  lemma ParseClosing(n: nat, tail: seq<Unit>)
    requires Separated(tail)
    ensures ParseOne(Slashes(2 * n) + [QUOTE] + tail, true, 0) == (Slashes(n), tail)
  {
    var line := [QUOTE] + tail;
    assert Slashes(2 * n) + [QUOTE] + tail == Slashes(2 * n) + line && line[1..] == tail;
    ParseSlashes(2 * n, line, true, 0);
    assert ParseOne(tail, false, 0) == ([], tail);
    assert Slashes(n) + [] == Slashes(n);
  }

  lemma Associative(a: seq<Unit>, b: seq<Unit>, c: seq<Unit>)
    ensures a + (b + c) == a + b + c
  {
  }

  /** Reading back the printer's output, from any point of the loop: the
      backslashes held by the printer come out exactly once. */
  lemma {:induction false} ParseEscaped(arg: seq<Unit>, held: nat, tail: seq<Unit>)
    requires Separated(tail)
    ensures ParseOne(Escaped(arg, held) + tail, true, 0) == (Slashes(held) + arg, tail)
    decreases |arg|
  {
    if arg == [] {
      ParseClosing(held, tail);
      assert Slashes(held) + arg == Slashes(held);
    } else if arg[0] == SLASH {
      ParseEscaped(arg[1..], held + 1, tail);
      assert Slashes(held + 1) + arg[1..] == Slashes(held) + arg;
    } else {
      var rest := Escaped(arg[1..], 0);
      ParseEscaped(arg[1..], 0, tail);
      assert Slashes(0) + arg[1..] == arg[1..];
      assert Slashes(held) + [arg[0]] + arg[1..] == Slashes(held) + arg;
      if arg[0] == QUOTE {
        ParseEscapedQuote(held, rest + tail);
        Associative(Slashes(2 * held + 1) + [QUOTE], rest, tail);
      } else {
        ParseLiteral(held, arg[0], rest + tail);
        Associative(Slashes(held) + [arg[0]], rest, tail);
      }
    }
  }

  lemma QuotedArgumentsSeparated(args: seq<seq<Unit>>)
    ensures Separated(QuotedArguments(args))
  {
  }

  /** One printed argument, read at the start of an argument. */
  lemma ParseQuoted(arg: seq<Unit>, tail: seq<Unit>)
    requires Separated(tail)
    ensures ParseOne(Quoted(arg) + tail, false, 0) == (arg, tail)
  {
    var rest := Escaped(arg, 0) + tail;
    var text := Quoted(arg) + tail;
    assert text == [QUOTE] + rest && text[1..] == rest;
    ParseEscaped(arg, 0, tail);
    assert Slashes(0) + arg == arg;
    assert Slashes(0 / 2) + arg == arg;
  }

  /** The arguments survive printing and parsing, whatever they contain. */
  lemma {:induction false} ArgumentsRoundTrip(args: seq<seq<Unit>>)
    ensures ParseArguments(QuotedArguments(args)) == args
  {
    if args != [] {
      var tail := QuotedArguments(args[1..]);
      var line := QuotedArguments(args);
      var text := Quoted(args[0]) + tail;
      assert line == [SPACE] + text && line[1..] == text;
      assert text[0] == QUOTE;
      assert SkipBlanks(text) == text;
      assert SkipBlanks(line) == text;
      QuotedArgumentsSeparated(args[1..]);
      ParseQuoted(args[0], tail);
      ArgumentsRoundTrip(args[1..]);
    }
  }

  /** The backslashes at the end of an argument, counting the held ones when
      nothing else follows them. */
  function Trailing(arg: seq<Unit>, held: nat): nat {
    if arg == [] then held
    else if arg[0] == SLASH then Trailing(arg[1..], held + 1)
    else Trailing(arg[1..], 0)
  }

  lemma {:induction false} TrailingIsLast(arg: seq<Unit>, held: nat)
    ensures Trailing(arg, held) == 0 <==> if arg == [] then held == 0 else arg[|arg| - 1] != SLASH
    decreases |arg|
  {
    if arg != [] {
      TrailingIsLast(arg[1..], if arg[0] == SLASH then held + 1 else 0);
    }
  }

  lemma {:induction false} ParseProgramSlashes(n: nat, line: seq<Unit>)
    ensures ParseProgram(Slashes(n) + line, true) == Prepend(Slashes(n), ParseProgram(line, true))
  {
    if n == 0 {
      assert Slashes(0) + line == line;
      assert Slashes(0) + ParseProgram(line, true).0 == ParseProgram(line, true).0;
    } else {
      var text := Slashes(n) + line;
      assert text[1..] == Slashes(n - 1) + line;
      ParseProgramSlashes(n - 1, line);
      assert [SLASH] + (Slashes(n - 1) + ParseProgram(line, true).0) == Slashes(n) + ParseProgram(line, true).0;
    }
  }

  /** The program-name rule reads back what was printed plus one more copy of
      the trailing backslashes, which the printer doubled. */
  lemma {:induction false} ParseProgramEscaped(arg: seq<Unit>, held: nat, tail: seq<Unit>)
    requires QUOTE !in arg && Separated(tail)
    ensures ParseProgram(Escaped(arg, held) + tail, true)
         == (Slashes(held) + arg + Slashes(Trailing(arg, held)), tail)
    decreases |arg|
  {
    if arg == [] {
      var line := [QUOTE] + tail;
      ParseProgramSlashes(2 * held, line);
      Associative(Slashes(2 * held), [QUOTE], tail);
      assert line[1..] == tail;
      assert Slashes(2 * held) + [] == Slashes(held) + arg + Slashes(held);
    } else if arg[0] == SLASH {
      ParseProgramEscaped(arg[1..], held + 1, tail);
      assert Slashes(held + 1) + arg[1..] == Slashes(held) + arg;
    } else {
      var rest := Escaped(arg[1..], 0);
      ParseProgramEscaped(arg[1..], 0, tail);
      ParseProgramLiteral(held, arg[0], rest + tail);
      Associative(Slashes(held) + [arg[0]], rest, tail);
      assert Slashes(0) + arg[1..] == arg[1..];
      Associative(Slashes(held) + [arg[0]], arg[1..], Slashes(Trailing(arg[1..], 0)));
      assert Slashes(held) + [arg[0]] + arg[1..] == Slashes(held) + arg;
    }
  }

  lemma ParseProgramLiteral(n: nat, c: Unit, rest: seq<Unit>)
    requires c != QUOTE
    ensures ParseProgram(Slashes(n) + [c] + rest, true) == Prepend(Slashes(n) + [c], ParseProgram(rest, true))
  {
    var line := [c] + rest;
    ParseProgramSlashes(n, line);
    Associative(Slashes(n), [c], rest);
    assert line[1..] == rest;
    Associative(Slashes(n), [c], ParseProgram(rest, true).0);
  }

  lemma {:induction false} ProgramHasNoQuote(line: seq<Unit>, inQuotes: bool)
    ensures QUOTE !in ParseProgram(line, inQuotes).0
  {
    if line != [] && line[0] == QUOTE {
      ProgramHasNoQuote(line[1..], !inQuotes);
    } else if line != [] && (inQuotes || !IsBlank(line[0])) {
      ProgramHasNoQuote(line[1..], inQuotes);
    }
  }

  predicate PlainProgram(executable: seq<Unit>) {
    QUOTE !in executable && (executable == [] || executable[|executable| - 1] != SLASH)
  }

  lemma ProgramRoundTrip(executable: seq<Unit>, tail: seq<Unit>)
    requires Separated(tail)
    ensures PlainProgram(executable) ==> ParseProgram(Quoted(executable) + tail, false) == (executable, tail)
    ensures !PlainProgram(executable) ==> ParseProgram(Quoted(executable) + tail, false).0 != executable
  {
    var text := Quoted(executable) + tail;
    ProgramHasNoQuote(text, false);
    if QUOTE !in executable {
      assert text[1..] == Escaped(executable, 0) + tail;
      ParseProgramEscaped(executable, 0, tail);
      TrailingIsLast(executable, 0);
      var more := Slashes(Trailing(executable, 0));
      assert Slashes(0) + executable + more == executable + more;
      assert more == [] ==> executable + more == executable;
    }
  }

  /** The whole line: every argument list comes back unchanged, and the
      program name does exactly when it has no quote and no trailing
      backslash. */
  lemma LineRoundTrip(executable: seq<Unit>, args: seq<seq<Unit>>)
    ensures ParseLine(Line(executable, args)) == [executable] + args <==> PlainProgram(executable)
  {
    QuotedArgumentsSeparated(args);
    ProgramRoundTrip(executable, QuotedArguments(args));
    ArgumentsRoundTrip(args);
    var (program, rest) := ParseProgram(Line(executable, args), false);
    assert ([program] + ParseArguments(rest))[0] == program;
    assert ([executable] + args)[0] == executable;
  }

  // ----------------------------------------------------------- the two loops

  /** A run of backslashes and the unit behind it. */
  method AppendRun(command: array<Unit>, offset: nat, count: nat, last: Unit) returns (end: nat)
    requires offset + count < command.Length
    modifies command
    ensures end == offset + count + 1
    ensures command[offset..end] == Slashes(count) + [last]
    ensures forall k | 0 <= k < command.Length && !(offset <= k < end) :: command[k] == old(command[k])
  {
    end := offset;
    for written := 0 to count
      invariant end == offset + written
      invariant forall k | offset <= k < end :: command[k] == SLASH
      invariant forall k | 0 <= k < command.Length && !(offset <= k < end) :: command[k] == old(command[k])
    {
      command[end] := SLASH;
      end := end + 1;
    }
    command[end] := last;
    end := end + 1;
  }

  lemma EscapedRun(arg: seq<Unit>, held: nat, run: seq<Unit>, written: seq<Unit>)
    requires arg != [] && arg[0] != SLASH
    requires run == Slashes(if arg[0] == QUOTE then held * 2 + 1 else held) + [arg[0]]
    ensures written + Escaped(arg, held) == written + run + Escaped(arg[1..], 0)
  {
  }

  /** Writes the quoted argument at `offset` and touches nothing else. */
  method AppendQuotedArgument(command: array<Unit>, offset: nat, argument: seq<Unit>) returns (end: nat)
    requires offset + |Quoted(argument)| <= command.Length
    modifies command
    ensures end == offset + |Quoted(argument)|
    ensures command[offset..end] == Quoted(argument)
    ensures forall k | 0 <= k < command.Length && !(offset <= k < end) :: command[k] == old(command[k])
  {
    command[offset] := QUOTE;
    end := offset + 1;
    var backslashes := 0;
    ghost var written := [QUOTE];
    for index := 0 to |argument|
      invariant offset <= end <= command.Length
      invariant command[offset..end] == written
      invariant written + Escaped(argument[index..], backslashes) == Quoted(argument)
      invariant forall k | 0 <= k < command.Length && !(offset <= k < end) :: command[k] == old(command[k])
    {
      ghost var rest := argument[index..];
      assert rest[1..] == argument[index + 1..];
      if argument[index] == SLASH {
        backslashes := backslashes + 1;
        continue;
      }
      var count := if argument[index] == QUOTE then backslashes * 2 + 1 else backslashes;
      ghost var run := Slashes(count) + [argument[index]];
      EscapedRun(rest, backslashes, run, written);
      end := AppendKeeping(command, offset, end, count, argument[index], written);
      written := written + run;
      backslashes := 0;
    }
    ghost var run := Slashes(backslashes * 2) + [QUOTE];
    end := AppendKeeping(command, offset, end, backslashes * 2, QUOTE, written);
  }

  /** AppendRun behind the text already written from `start` on. */
  method AppendKeeping(command: array<Unit>, start: nat, offset: nat, count: nat, last: Unit, ghost written: seq<Unit>)
    returns (end: nat)
    requires start <= offset && offset + count < command.Length
    requires command[start..offset] == written
    modifies command
    ensures end == offset + count + 1
    ensures command[start..end] == written + (Slashes(count) + [last])
    ensures forall k | 0 <= k < command.Length && !(start <= k < end) :: command[k] == old(command[k])
  {
    end := AppendRun(command, offset, count, last);
    assert command[start..end] == command[start..offset] + command[offset..end];
    assert forall k | 0 <= k < |written| :: command[start + k] == written[k] by {
      forall k | 0 <= k < |written| ensures command[start + k] == written[k] {
        assert old(command[start..offset])[k] == written[k];
      }
    }
    assert command[start..offset] == written;
  }

  // ------------------------------------------------------------ the capacity

  const SIZE_MAX_32: nat := 0xFFFF_FFFF

  /** SIZE_MAX on a system of 32 or of 64 bits. */
  type SizeMax = m: nat | m == SIZE_MAX_32 || m == U64_MAX witness SIZE_MAX_32

  /** The value an expression of type size_t has. */
  function Wrap(max: SizeMax, x: int): (r: nat)
    ensures r <= max
    ensures 0 <= x <= max ==> r == x
  {
    if max == SIZE_MAX_32 then x % 0x1_0000_0000 else Wrap64(x)
  }

  /** One capacity step: the guard, then the sum, both in size_t. `fixed` is 3
      for the executable and 4 for an argument. */
  function AddCapacity(max: SizeMax, capacity: nat, length: nat, fixed: nat): Option<nat> {
    if length > Wrap(max, max - capacity - fixed) / 2 then None
    else Some(Wrap(max, capacity + Wrap(max, Wrap(max, length * 2) + fixed)))
  }

  function AddCapacities(max: SizeMax, capacity: nat, lengths: seq<nat>): Option<nat>
    decreases |lengths|
  {
    if lengths == [] then Some(capacity)
    else
      match AddCapacity(max, capacity, lengths[0], 4)
      case None => None
      case Some(next) => AddCapacities(max, next, lengths[1..])
  }

  /** The capacity the code computes, or None where it gives up. */
  function Capacity(max: SizeMax, executable: nat, lengths: seq<nat>): Option<nat> {
    match AddCapacity(max, 1, executable, 3)
    case None => None
    case Some(capacity) => AddCapacities(max, capacity, lengths)
  }

  /** The units the arguments are meant to add. */
  function Needs(lengths: seq<nat>): nat {
    if lengths == [] then 0 else 2 * lengths[0] + 4 + Needs(lengths[1..])
  }

  /** The sum the code means to compute. */
  function TrueCapacity(executable: nat, lengths: seq<nat>): nat {
    4 + 2 * executable + Needs(lengths)
  }

  /** The units malloc is asked for: the byte count is a size_t too, and a
      wide character takes two bytes. */
  function AllocatedUnits(max: SizeMax, capacity: nat): nat {
    Wrap(max, capacity * 2) / 2
  }

  /** Only the sum counts, however often it wraps on the way. */
  lemma WrapSum(max: SizeMax, x: int, y: int)
    ensures Wrap(max, x + Wrap(max, y)) == Wrap(max, x + y)
  {
    if max != SIZE_MAX_32 {
      WrapOfSum(x, y);
    }
  }

  lemma StepIsCongruent(max: SizeMax, capacity: nat, length: nat, fixed: nat)
    requires AddCapacity(max, capacity, length, fixed).Some?
    ensures AddCapacity(max, capacity, length, fixed).value == Wrap(max, capacity + 2 * length + fixed)
  {
    WrapSum(max, fixed, length * 2);
    WrapSum(max, capacity, length * 2 + fixed);
  }

  lemma {:induction false} SumIsCongruent(max: SizeMax, capacity: nat, lengths: seq<nat>)
    requires capacity <= max && AddCapacities(max, capacity, lengths).Some?
    ensures AddCapacities(max, capacity, lengths).value == Wrap(max, capacity + Needs(lengths))
    decreases |lengths|
  {
    if lengths != [] {
      var next := AddCapacity(max, capacity, lengths[0], 4).value;
      StepIsCongruent(max, capacity, lengths[0], 4);
      SumIsCongruent(max, next, lengths[1..]);
      WrapSum(max, Needs(lengths[1..]), capacity + 2 * lengths[0] + 4);
    }
  }

  /** Wherever the code goes on, it has the meant sum, wrapped. */
  lemma CapacityIsWrapped(max: SizeMax, executable: nat, lengths: seq<nat>)
    requires Capacity(max, executable, lengths).Some?
    ensures Capacity(max, executable, lengths).value == Wrap(max, TrueCapacity(executable, lengths))
  {
    StepIsCongruent(max, 1, executable, 3);
    SumIsCongruent(max, AddCapacity(max, 1, executable, 3).value, lengths);
    WrapSum(max, Needs(lengths), 4 + 2 * executable);
  }

  lemma {:induction false} SumFits(max: SizeMax, capacity: nat, lengths: seq<nat>)
    requires capacity + Needs(lengths) <= max
    ensures AddCapacities(max, capacity, lengths) == Some(capacity + Needs(lengths))
    decreases |lengths|
  {
    if lengths != [] {
      var next := capacity + 2 * lengths[0] + 4;
      SumFits(max, next, lengths[1..]);
      assert AddCapacity(max, capacity, lengths[0], 4) == Some(next);
    }
  }

  /** Twice a wrapped sum that does not fit is less than the sum. */
  lemma HalfOfWrapped(max: SizeMax, sum: nat)
    ensures if 2 * sum <= max then AllocatedUnits(max, Wrap(max, sum)) == sum
            else 2 * AllocatedUnits(max, Wrap(max, sum)) < sum
  {
    var capacity := Wrap(max, sum);
    if max < 2 * sum && sum <= max {
      assert Wrap(max, capacity * 2) == capacity * 2 - max - 1;
    }
  }

  /** The allocation holds what was meant exactly when twice the meant sum is
      a size_t; beyond that the guard fires, or less than half of it is
      allocated. */
  lemma AllocationIsExact(max: SizeMax, executable: nat, lengths: seq<nat>)
    ensures var sum, capacity := TrueCapacity(executable, lengths), Capacity(max, executable, lengths);
            if 2 * sum <= max then capacity.Some? && AllocatedUnits(max, capacity.value) == sum
            else capacity.Some? ==> 2 * AllocatedUnits(max, capacity.value) < sum
  {
    var sum := TrueCapacity(executable, lengths);
    HalfOfWrapped(max, sum);
    if 2 * sum <= max {
      assert AddCapacity(max, 1, executable, 3) == Some(4 + 2 * executable);
      SumFits(max, 4 + 2 * executable, lengths);
    }
    if Capacity(max, executable, lengths).Some? {
      CapacityIsWrapped(max, executable, lengths);
    }
  }

  /** The guard does not help where size_t has 32 bits: an executable of 1 GiB
      passes it, and four units are allocated for its line; an empty argument
      behind one of nearly 2 GiB wraps the sum itself. */
  lemma GuardMissesHugeLines()
    ensures Capacity(SIZE_MAX_32, 0x4000_0000, []) == Some(0x8000_0004)
    ensures AllocatedUnits(SIZE_MAX_32, 0x8000_0004) == 4
    ensures Capacity(SIZE_MAX_32, 0x7FFF_FFFD, [0]) == Some(2)
  {
    assert AddCapacity(SIZE_MAX_32, 1, 0x7FFF_FFFD, 3) == Some(0xFFFF_FFFE);
    assert AddCapacity(SIZE_MAX_32, 0xFFFF_FFFE, 0, 4) == Some(2);
    assert AddCapacities(SIZE_MAX_32, 2, []) == Some(2);
    assert [0][1..] == [];
  }

  lemma {:induction false} EscapedLength(arg: seq<Unit>, held: nat)
    ensures |arg| + held + 1 <= |Escaped(arg, held)| <= 2 * (|arg| + held) + 1
    decreases |arg|
  {
    if arg != [] {
      EscapedLength(arg[1..], if arg[0] == SLASH then held + 1 else 0);
    }
  }

  // --------------------------------------------------------- the whole line

  /** A C string: its strlen, and its UTF-16 form if it converts. Conversion
      never needs more units than the string has bytes, and just as many for
      ASCII. */
  datatype Text = Text(length: nat, wide: Option<seq<Unit>>) {
    predicate Valid() {
      wide.Some? ==> |wide.value| <= length
    }

    predicate Ascii() {
      wide.Some? && |wide.value| == length
    }
  }

  predicate AllSome(texts: seq<Option<Text>>) {
    forall text | text in texts :: text.Some?
  }

  predicate AllConvert(texts: seq<Option<Text>>) {
    forall text | text in texts :: text.Some? && text.value.wide.Some?
  }

  predicate AllValid(texts: seq<Option<Text>>) {
    forall text | text in texts && text.Some? :: text.value.Valid()
  }

  predicate AllAscii(texts: seq<Option<Text>>) {
    forall text | text in texts :: text.Some? && text.value.Ascii()
  }

  function Wides(texts: seq<Option<Text>>): (r: seq<seq<Unit>>)
    requires AllConvert(texts)
    ensures |r| == |texts|
  {
    seq(|texts|, i requires 0 <= i < |texts| => texts[i].value.wide.value)
  }

  function Lengths(texts: seq<Option<Text>>): (r: seq<nat>)
    ensures |r| == |texts|
  {
    seq(|texts|, i requires 0 <= i < |texts| => if texts[i].Some? then texts[i].value.length else 0)
  }

  lemma ShorterTexts(texts: seq<Option<Text>>)
    requires texts != []
    ensures Lengths(texts)[1..] == Lengths(texts[1..])
    ensures AllConvert(texts) ==> Wides(texts)[1..] == Wides(texts[1..])
  {
  }

  lemma {:induction false} ArgumentsFit(texts: seq<Option<Text>>)
    requires AllValid(texts) && AllConvert(texts)
    ensures |QuotedArguments(Wides(texts))| <= Needs(Lengths(texts))
    ensures AllAscii(texts) ==> Needs(Lengths(texts)) <= 2 * |QuotedArguments(Wides(texts))|
  {
    if texts != [] {
      assert texts[0] in texts;
      EscapedLength(Wides(texts)[0], 0);
      ArgumentsFit(texts[1..]);
      ShorterTexts(texts);
    }
  }

  /** The line and its terminator need no more than the meant sum; a line of
      ASCII at least half of it. */
  lemma LineFits(executable: Text, texts: seq<Option<Text>>)
    requires executable.Valid() && executable.wide.Some? && AllValid(texts) && AllConvert(texts)
    ensures |Line(executable.wide.value, Wides(texts))| + 1 <= TrueCapacity(executable.length, Lengths(texts))
    ensures executable.Ascii() && AllAscii(texts) ==>
              TrueCapacity(executable.length, Lengths(texts)) <= 2 * (|Line(executable.wide.value, Wides(texts))| + 1)
  {
    EscapedLength(executable.wide.value, 0);
    ArgumentsFit(texts);
  }

  /** How a build ends: with the line, with NULL, or past the allocation. */
  datatype Ending = Fits | Fails | Overruns

  /** Writing the arguments, and the terminator, behind `used` units. */
  function Filled(units: nat, used: nat, texts: seq<Option<Text>>): Ending
    decreases |texts|
  {
    if texts == [] then (if used < units then Fits else Overruns)
    else if texts[0].None? || texts[0].value.wide.None? then Fails
    else if used + 1 + |Quoted(texts[0].value.wide.value)| > units then Overruns
    else Filled(units, used + 1 + |Quoted(texts[0].value.wide.value)|, texts[1..])
  }

  function FilledLine(units: nat, executable: Text, texts: seq<Option<Text>>): Ending {
    if executable.wide.None? then Fails
    else if |Quoted(executable.wide.value)| > units then Overruns
    else Filled(units, |Quoted(executable.wide.value)|, texts)
  }

  /** pty_windows_build_command_line; `memory` is malloc's answer. */
  function Built(max: SizeMax, executable: Option<Text>, arguments: seq<Option<Text>>, memory: bool): Ending {
    if executable.None? || !AllSome(arguments) || !memory then Fails
    else
      match Capacity(max, executable.value.length, Lengths(arguments))
      case None => Fails
      case Some(capacity) => FilledLine(AllocatedUnits(max, capacity), executable.value, arguments)
  }

  /** Filling ends well exactly if the text is shorter than the allocation. */
  lemma {:induction false} FillingExactly(units: nat, used: nat, texts: seq<Option<Text>>)
    requires AllConvert(texts) && used <= units
    ensures Filled(units, used, texts) == if used + |QuotedArguments(Wides(texts))| < units then Fits else Overruns
    decreases |texts|
  {
    if texts != [] {
      assert texts[0] in texts;
      ShorterTexts(texts);
      var end := used + 1 + |Quoted(texts[0].value.wide.value)|;
      if end <= units {
        FillingExactly(units, end, texts[1..]);
      }
    }
  }

  lemma {:induction false} RoomyFilling(units: nat, used: nat, texts: seq<Option<Text>>)
    requires AllValid(texts) && used + Needs(Lengths(texts)) < units
    ensures Filled(units, used, texts) != Overruns
    decreases |texts|
  {
    if texts != [] && texts[0].Some? && texts[0].value.wide.Some? {
      assert texts[0] in texts;
      ShorterTexts(texts);
      EscapedLength(texts[0].value.wide.value, 0);
      RoomyFilling(units, used + 1 + |Quoted(texts[0].value.wide.value)|, texts[1..]);
    }
  }

  /** Up to the bound no build ever writes past its allocation, and every one
      succeeds that converts and gets its memory. */
  lemma SmallLinesFit(max: SizeMax, executable: Text, arguments: seq<Option<Text>>, memory: bool)
    requires executable.Valid() && AllValid(arguments)
    requires 2 * TrueCapacity(executable.length, Lengths(arguments)) <= max
    ensures Built(max, Some(executable), arguments, memory) != Overruns
    ensures executable.wide.Some? && AllConvert(arguments) && memory ==>
              Built(max, Some(executable), arguments, memory) == Fits
  {
    AllocationIsExact(max, executable.length, Lengths(arguments));
    var units := TrueCapacity(executable.length, Lengths(arguments));
    if executable.wide.Some? {
      EscapedLength(executable.wide.value, 0);
      RoomyFilling(units, |Quoted(executable.wide.value)|, arguments);
      if AllConvert(arguments) {
        LineFits(executable, arguments);
        FillingExactly(units, |Quoted(executable.wide.value)|, arguments);
      }
    }
  }

  /** For ASCII texts that is the exact bound: beyond it every build that the
      guard lets through writes past its allocation. */
  lemma HugeLinesOverrun(max: SizeMax, executable: Text, arguments: seq<Option<Text>>)
    requires executable.Ascii() && AllAscii(arguments)
    ensures Built(max, Some(executable), arguments, true) == Overruns <==>
              && max < 2 * TrueCapacity(executable.length, Lengths(arguments))
              && Capacity(max, executable.length, Lengths(arguments)).Some?
  {
    if 2 * TrueCapacity(executable.length, Lengths(arguments)) <= max {
      SmallLinesFit(max, executable, arguments, true);
    } else {
      AllocationIsExact(max, executable.length, Lengths(arguments));
      LineFits(executable, arguments);
      var capacity := Capacity(max, executable.length, Lengths(arguments));
      if capacity.Some? && |Quoted(executable.wide.value)| <= AllocatedUnits(max, capacity.value) {
        FillingExactly(AllocatedUnits(max, capacity.value), |Quoted(executable.wide.value)|, arguments);
      }
    }
  }

  /** It happens: 1 GiB of ASCII on a 32-bit system. */
  lemma AHugeLineOverruns(wide: seq<Unit>)
    requires |wide| == 0x4000_0000
    ensures Built(SIZE_MAX_32, Some(Text(|wide|, Some(wide))), [], true) == Overruns
  {
    GuardMissesHugeLines();
    assert Lengths([]) == [];
    HugeLinesOverrun(SIZE_MAX_32, Text(|wide|, Some(wide)), []);
  }

  method RaiseCapacity(max: SizeMax, capacity: nat, length: nat, fixed: nat) returns (r: Option<nat>)
    ensures r == AddCapacity(max, capacity, length, fixed)
  {
    if length > Wrap(max, max - capacity - fixed) / 2 {
      return None;
    }
    return Some(Wrap(max, capacity + Wrap(max, Wrap(max, length * 2) + fixed)));
  }

  lemma NextCapacity(max: SizeMax, capacity: nat, lengths: seq<nat>, index: nat)
    requires index < |lengths|
    ensures AddCapacities(max, capacity, lengths[index..])
         == match AddCapacity(max, capacity, lengths[index], 4)
            case None => None
            case Some(next) => AddCapacities(max, next, lengths[index + 1..])
  {
    assert lengths[index..][1..] == lengths[index + 1..];
  }

  /** The first half of the build: the capacity, or None for NULL. */
  method MeasureCapacity(max: SizeMax, executable: Text, arguments: seq<Option<Text>>) returns (r: Option<nat>)
    ensures r == if AllSome(arguments) then Capacity(max, executable.length, Lengths(arguments)) else None
  {
    ghost var lengths := Lengths(arguments);
    r := RaiseCapacity(max, 1, executable.length, 3);
    if r.None? {
      return;
    }
    for index := 0 to |arguments|
      invariant r.Some? && AllSome(arguments[..index])
      invariant AddCapacities(max, r.value, lengths[index..]) == Capacity(max, executable.length, lengths)
    {
      if arguments[index].None? {
        assert arguments[index] in arguments;
        return None;
      }
      NextCapacity(max, r.value, lengths, index);
      r := RaiseCapacity(max, r.value, arguments[index].value.length, 4);
      if r.None? {
        return;
      }
      assert arguments[..index + 1] == arguments[..index] + [arguments[index]];
    }
    assert lengths[|arguments|..] == [] && arguments[..|arguments|] == arguments;
  }

  /** Where the code would write past its allocation the method stops and says
      so. */
  method BuildCommandLine(max: SizeMax, executable: Option<Text>, arguments: seq<Option<Text>>, memory: bool)
    returns (command: array?<Unit>, overruns: bool)
    ensures overruns <==> Built(max, executable, arguments, memory) == Overruns
    ensures command != null <==> Built(max, executable, arguments, memory) == Fits
    ensures command != null ==>
              && fresh(command) && executable.Some? && executable.value.wide.Some? && AllConvert(arguments)
              && Line(executable.value.wide.value, Wides(arguments)) + [NUL] <= command[..]
  {
    if executable.None? {
      return null, false;
    }
    var capacity := MeasureCapacity(max, executable.value, arguments);
    if capacity.None? || !memory {
      return null, false;
    }
    command := new Unit[Wrap(max, capacity.value * 2) / 2](_ => NUL);
    if executable.value.wide.None? {
      return null, false;
    }
    command, overruns := FillCommandLine(command, executable.value, arguments);
  }

  /** A space and the quoted argument, behind all that is written so far. */
  method AppendArgument(command: array<Unit>, offset: nat, wide: seq<Unit>, ghost written: seq<Unit>) returns (end: nat)
    requires offset + 1 + |Quoted(wide)| <= command.Length && command[..offset] == written
    modifies command
    ensures end == offset + 1 + |Quoted(wide)|
    ensures command[..end] == written + [SPACE] + Quoted(wide)
  {
    command[offset] := SPACE;
    assert command[..offset + 1] == written + [SPACE];
    end := AppendQuotedArgument(command, offset + 1, wide);
    assert command[..end] == command[..offset + 1] + command[offset + 1..end];
  }

  /** The second half of the build: quoted texts behind each other, then the
      terminator; null as soon as a conversion fails. */
  method FillCommandLine(command: array<Unit>, executable: Text, arguments: seq<Option<Text>>)
    returns (line: array?<Unit>, overruns: bool)
    requires executable.wide.Some? && AllSome(arguments)
    modifies command
    ensures overruns <==> FilledLine(command.Length, executable, arguments) == Overruns
    ensures line != null <==> FilledLine(command.Length, executable, arguments) == Fits
    ensures line != null ==>
              && line == command && AllConvert(arguments)
              && Line(executable.wide.value, Wides(arguments)) + [NUL] <= command[..]
  {
    if |Quoted(executable.wide.value)| > command.Length {
      return null, true;
    }
    ghost var written := Quoted(executable.wide.value);
    var offset := AppendQuotedArgument(command, 0, executable.wide.value);
    for index := 0 to |arguments|
      invariant offset == |written| <= command.Length && command[..offset] == written
      invariant FilledLine(command.Length, executable, arguments) == Filled(command.Length, offset, arguments[index..])
      invariant AllConvert(arguments[..index])
      invariant written == Line(executable.wide.value, Wides(arguments[..index]))
    {
      assert arguments[index] in arguments && arguments[index..][1..] == arguments[index + 1..];
      if arguments[index].value.wide.None? {
        return null, false;
      }
      var wide := arguments[index].value.wide.value;
      if offset + 1 + |Quoted(wide)| > command.Length {
        return null, true;
      }
      offset := AppendArgument(command, offset, wide, written);
      LineGrows(executable, arguments, index);
      written := written + [SPACE] + Quoted(wide);
    }
    assert arguments[..|arguments|] == arguments && arguments[|arguments|..] == [];
    if offset >= command.Length {
      return null, true;
    }
    command[offset] := NUL;
    assert command[..offset] == written;
    return command, false;
  }

  lemma {:induction false} QuotedArgumentsConcat(a: seq<seq<Unit>>, b: seq<seq<Unit>>)
    ensures QuotedArguments(a + b) == QuotedArguments(a) + QuotedArguments(b)
  {
    if a == [] {
      assert a + b == b;
    } else {
      QuotedArgumentsConcat(a[1..], b);
      assert (a + b)[1..] == a[1..] + b;
      Associative([SPACE] + Quoted(a[0]), QuotedArguments(a[1..]), QuotedArguments(b));
    }
  }

  /** One more argument in front of the loop. */
  lemma LineGrows(executable: Text, texts: seq<Option<Text>>, index: nat)
    requires executable.wide.Some? && index < |texts|
    requires AllConvert(texts[..index]) && texts[index].Some? && texts[index].value.wide.Some?
    ensures AllConvert(texts[..index + 1])
    ensures Line(executable.wide.value, Wides(texts[..index + 1]))
         == Line(executable.wide.value, Wides(texts[..index])) + [SPACE] + Quoted(texts[index].value.wide.value)
  {
    assert texts[..index + 1] == texts[..index] + [texts[index]];
    var wide: seq<Unit> := texts[index].value.wide.value;
    assert Wides(texts[..index + 1]) == Wides(texts[..index]) + [wide];
    QuotedArgumentsConcat(Wides(texts[..index]), [wide]);
    assert QuotedArguments([wide]) == [SPACE] + Quoted(wide) by {
      assert [wide][1..] == [];
    }
  }
}
