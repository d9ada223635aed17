/**
 * The command-line driver of the quark compiler (quarkc/command.py): the
 * progress handler that lays log records out on one console line per
 * step, and the choice of target backends from the command-line flags.
 */
module Command {

  // Standard logging levels.
  const NotSet := 0
  const Debug := 10
  const Info := 20
  const Warning := 30
  const Error := 40

  /** The `k`-th value of the spinner: a dot, then three empty strings, over and over. */
  function Spinner(k: nat): (s: string)
    ensures s == "." <==> k % 4 == 0
    ensures s != "." ==> s == ""
  {
    if k % 4 == 0 then "." else ""
  }

  // ---------------------------------------------------------------------
  // The layout of one record, rule by rule

  /** A DEBUG-level record on a quiet console: shown only as a spinner tick. */
  predicate Quiet(level: int, verbose: bool)
  {
    level < Info && !verbose
  }

  /**
   * What is written before the message: nothing at the very start of a
   * run, " done.\n" to close an INFO step that an INFO or WARNING record
   * follows, and a fresh line otherwise.
   */
  function Prefix(last: int, level: int): string
  {
    if level <= Info && last == NotSet then ""
    else if (level == Info || level == Warning) && last >= Info then " done.\n"
    else "\n"
  }

  /** What follows the message: nothing for DEBUG, " ..." for an INFO step, a line end for the rest. */
  function Postfix(level: int): string
  {
    if level < Info then "" else if level == Info then " ..." else "\n"
  }

  function LevelLetter(level: int): char
  {
    if level < Info then 'd' else if level == Info then 'i' else if level == Warning then 'w' else 'e'
  }

  /**
   * The letter of the previous level in the debugging tag: "0" at the
   * start before a DEBUG or INFO record (a WARNING or ERROR reads the
   * start as "d"), "d" after DEBUG, "i" after INFO or above.
   */
  function LastLetter(last: int, level: int): char
  {
    if last == NotSet && level <= Info then '0' else if last < Info then 'd' else 'i'
  }

  /** The transition tag, e.g. " (i->w) ". */
  function Tag(last: int, level: int): string
  {
    [' ', '(', LastLetter(last, level), '-', '>', LevelLetter(level), ')', ' ']
  }

  /** The text `emit` writes for one record. */
  function Emitted(last: int, level: int, msg: string, verbose: bool, doDebug: bool, spin: nat): string
  {
    if Quiet(level, verbose) then Spinner(spin)
    else
      Prefix(last, level) + (if doDebug then Tag(last, level) else "") + msg + Postfix(level)
  }

  /** A console log handler that keeps track of the level of the previous record. */
  class ProgressHandler {
    const verbose: bool
    var doDebug: bool
    var last: int
    /** How many values the spinner has given. */
    var spin: nat
    /** Everything written to the stream so far. */
    var written: string

    constructor (verbose: bool)
      ensures this.verbose == verbose && !doDebug && last == NotSet && spin == 0 && written == ""
    {
      this.verbose := verbose;
      doDebug := false;
      last := NotSet;
      spin := 0;
      written := "";
    }

    /**
     * `emit(record)`: writes the record's message between a prefix and a
     * postfix chosen from the previous and the current level, and
     * remembers the current level.
     */
    method Emit(level: int, msg: string)
      modifies this
      ensures last == level && doDebug == old(doDebug)
      ensures spin == old(spin) + (if Quiet(level, verbose) then 1 else 0)
      ensures written == old(written) + Emitted(old(last), level, msg, verbose, doDebug, old(spin))
    {
      var prefix, dbg, postfix := Layout(last, level);
      var text := msg;
      if level < Info && !verbose {
        prefix, postfix, dbg := "", "", "";
        text := Spinner(spin);
        spin := spin + 1;
      }
      last := level;
      if doDebug {
        prefix := prefix + dbg;
      }
      written := written + (prefix + text + postfix);
    }
  }

  /** The prefix, debugging tag and postfix `emit` picks for a transition from `last` to `level`. */
  method Layout(last: int, level: int) returns (prefix: string, dbg: string, postfix: string)
    ensures prefix == Prefix(last, level) && dbg == Tag(last, level) && postfix == Postfix(level)
  {
    if level < Info {
      if last < Info {
        if last == NotSet {
          prefix, dbg := "", " (0->d) ";
        } else {
          prefix, dbg := "\n", " (d->d) ";
        }
        postfix := "";
      } else {
        prefix, dbg, postfix := "\n", " (i->d) ", "";
      }
    } else if level == Info {
      if last < Info {
        if last == NotSet {
          prefix, dbg := "", " (0->i) ";
        } else {
          prefix, dbg := "\n", " (d->i) ";
        }
        postfix := " ...";
      } else {
        prefix, dbg, postfix := " done.\n", " (i->i) ", " ...";
      }
    } else if level == Warning {
      if last < Info {
        prefix, dbg, postfix := "\n", " (d->w) ", "\n";
      } else {
        prefix, dbg, postfix := " done.\n", " (i->w) ", "\n";
      }
    } else {
      if last < Info {
        prefix, dbg, postfix := "\n", " (d->e) ", "\n";
      } else {
        prefix, dbg, postfix := "\n", " (i->e) ", "\n";
      }
    }
  }

  // ---------------------------------------------------------------------
  // Properties of the layout

  /** The first INFO record of a run starts the line itself and leaves it open with " ...". */
  lemma FirstInfo(msg: string, verbose: bool)
    ensures Emitted(NotSet, Info, msg, verbose, false, 0) == msg + " ..."
  {
  }

  /** An INFO record after an INFO record first closes the previous step with " done.". */
  lemma InfoAfterInfo(last: int, msg: string, verbose: bool, spin: nat)
    requires Info <= last
    ensures Emitted(last, Info, msg, verbose, false, spin) == " done.\n" + msg + " ..."
  {
  }

  /** On a quiet console a DEBUG record shows only the next spinner value, whatever its message. */
  lemma QuietDebug(last: int, level: int, msg: string, doDebug: bool, spin: nat)
    requires level < Info
    ensures Emitted(last, level, msg, false, doDebug, spin) == Spinner(spin)
  {
  }

  /** A verbose DEBUG record is written in full, on a new line unless it is the first record. */
  lemma VerboseDebug(last: int, level: int, msg: string, spin: nat)
    requires level < Info
    ensures Emitted(last, level, msg, true, false, spin) == (if last == NotSet then "" else "\n") + msg
  {
  }

  /** WARNING and ERROR records always end their line, and only a WARNING closes an open step. */
  lemma WarningsEndTheLine(last: int, level: int, msg: string, verbose: bool, spin: nat)
    requires level > Info
    ensures var s := Emitted(last, level, msg, verbose, false, spin);
      s == Prefix(last, level) + msg + "\n" &&
      (Prefix(last, level) == " done.\n" <==> level == Warning && last >= Info) &&
      (Prefix(last, level) != " done.\n" ==> Prefix(last, level) == "\n")
  {
  }

  /** The debugging tag is written only when asked for, right after the prefix. */
  lemma TagOnlyWhenAsked(last: int, level: int, msg: string, verbose: bool, spin: nat)
    requires !Quiet(level, verbose)
    ensures Emitted(last, level, msg, verbose, true, spin) ==
      Prefix(last, level) + Tag(last, level) + msg + Postfix(level)
    ensures Emitted(last, level, msg, verbose, false, spin) == Prefix(last, level) + msg + Postfix(level)
  {
  }

  /** Over a run of quiet DEBUG records, the spinner shows a dot for every fourth one. */
  lemma {:induction false} SpinnerDots(spin: nat, n: nat)
    ensures Dots(spin, n) == (spin + n + 3) / 4 - (spin + 3) / 4
    decreases n
  {
    if n > 0 {
      SpinnerDots(spin + 1, n - 1);
      DotStep(spin);
    }
  }

  /** The count of multiples of 4 below `k` grows by one exactly past a multiple of 4. */
  lemma DotStep(spin: nat)
    ensures (spin + 4) / 4 - (spin + 3) / 4 == if spin % 4 == 0 then 1 else 0
  {
    var q, r := spin / 4, spin % 4;
    assert spin == 4 * q + r;
    assert (spin + 4) / 4 == q + 1;
    assert (spin + 3) / 4 == q + (r + 3) / 4;
  }

  /** The number of dots among `n` spinner values starting at `spin`. */
  function Dots(spin: nat, n: nat): nat
    decreases n
  {
    if n == 0 then 0 else (if Spinner(spin) == "." then 1 else 0) + Dots(spin + 1, n - 1)
  }

  // ---------------------------------------------------------------------
  // Backend selection

  datatype Backend = Java | Ruby | Python | JavaScript

  /** The order `main` considers the backends in. */
  const Order: seq<Backend> := [Java, Ruby, Python, JavaScript]

  /** The target flags given on the command line. */
  datatype Flags = Flags(java: bool, ruby: bool, python: bool, javascript: bool, all: bool)

  /** `--all` is implied when no target flag is given. */
  predicate AllTargets(f: Flags)
  {
    f.all || !(f.java || f.python || f.javascript || f.ruby)
  }

  predicate Asked(f: Flags, b: Backend)
  {
    match b
    case Java => f.java
    case Ruby => f.ruby
    case Python => f.python
    case JavaScript => f.javascript
  }

  function Position(b: Backend): nat
  {
    match b
    case Java => 0
    case Ruby => 1
    case Python => 2
    case JavaScript => 3
  }

  /** The backend `b` if the flags choose it. */
  function Pick(f: Flags, b: Backend): seq<Backend>
  {
    if Asked(f, b) || AllTargets(f) then [b] else []
  }

  /** The backends of `bs` that the flags choose, in their order. */
  function Chosen(f: Flags, bs: seq<Backend>): seq<Backend>
  {
    if bs == [] then [] else Pick(f, bs[0]) + Chosen(f, bs[1..])
  }

  lemma ChosenOrder(f: Flags)
    ensures Chosen(f, Order) == Pick(f, Java) + Pick(f, Ruby) + Pick(f, Python) + Pick(f, JavaScript)
  {
    assert Chosen(f, [JavaScript]) == Pick(f, JavaScript) by {
      assert [JavaScript][1..] == [];
    }
    assert Chosen(f, [Python, JavaScript]) == Pick(f, Python) + Pick(f, JavaScript) by {
      assert [Python, JavaScript][1..] == [JavaScript];
    }
    assert Chosen(f, [Ruby, Python, JavaScript]) == Pick(f, Ruby) + Pick(f, Python) + Pick(f, JavaScript) by {
      assert [Ruby, Python, JavaScript][1..] == [Python, JavaScript];
    }
    assert Order[1..] == [Ruby, Python, JavaScript];
  }

  /**
   * The backends `main` collects: a backend is chosen when its flag is
   * given or all targets are, each at most once, in the order Java, Ruby,
   * Python, JavaScript.
   */
  method SelectBackends(f: Flags) returns (backends: seq<Backend>)
    ensures backends == Chosen(f, Order)
  {
    ChosenOrder(f);
    var all := f.all || !(f.java || f.python || f.javascript || f.ruby);
    backends := [];
    if f.java || all {
      backends := backends + [Java];
    }
    if f.ruby || all {
      backends := backends + [Ruby];
    }
    if f.python || all {
      backends := backends + [Python];
    }
    if f.javascript || all {
      backends := backends + [JavaScript];
    }
  }

  /** A backend is chosen exactly when its flag or all targets are given; none twice, none out of order. */
  lemma ChosenBackends(f: Flags)
    ensures forall b :: b in Chosen(f, Order) <==> Asked(f, b) || AllTargets(f)
    ensures forall i, j :: 0 <= i < j < |Chosen(f, Order)| ==>
      Position(Chosen(f, Order)[i]) < Position(Chosen(f, Order)[j])
  {
    ChosenOrder(f);
    var a, b, c, d := Pick(f, Java), Pick(f, Ruby), Pick(f, Python), Pick(f, JavaScript);
    var r := a + b + c + d;
    forall x ensures x in r <==> Asked(f, x) || AllTargets(f) {
      assert x in r <==> x in a || x in b || x in c || x in d;
      match x
      case Java => assert x !in b && x !in c && x !in d;
      case Ruby => assert x !in a && x !in c && x !in d;
      case Python => assert x !in a && x !in b && x !in d;
      case JavaScript => assert x !in a && x !in b && x !in c;
    }
    forall i, j | 0 <= i < j < |r| ensures Position(r[i]) < Position(r[j]) {
      Increasing(a, b, c, d, i, j);
    }
  }

  lemma Increasing(a: seq<Backend>, b: seq<Backend>, c: seq<Backend>, d: seq<Backend>, i: nat, j: nat)
    requires a == [] || a == [Java]
    requires b == [] || b == [Ruby]
    requires c == [] || c == [Python]
    requires d == [] || d == [JavaScript]
    requires i < j < |a + b + c + d|
    ensures Position((a + b + c + d)[i]) < Position((a + b + c + d)[j])
  {
  }

  /** With no target flag, all four backends are chosen, Java first. */
  lemma NoFlagsSelectsAll()
    ensures Chosen(Flags(false, false, false, false, false), Order) == Order
  {
    ChosenOrder(Flags(false, false, false, false, false));
  }

  /** Naming one target chooses that backend alone. */
  lemma OneFlagSelectsOne(f: Flags, b: Backend)
    requires !f.all && Asked(f, b)
    requires forall c :: c != b ==> !Asked(f, c)
    ensures Chosen(f, Order) == [b]
  {
    ChosenOrder(f);
  }
}
