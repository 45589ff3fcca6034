/**
 * Sequences of reconfiguration calls on the facade (Initialize,
 * SetEnvironment, SetLevel) and what holds after any number of them.
 */
module LoggerTraces {
  import opened Wrappers
  import opened Zap
  import opened Logger

  /** One state-changing call, with the builder's outcome where the call builds. */
  datatype Op =
    | InitializeOp(config: Config, fault: Option<BuildFault>)
    | SetEnvironmentOp(env: Environment, fault: Option<BuildFault>)
    | SetLevelOp(level: Level)

  function Step(s: State, op: Op): State
  {
    match op
    case InitializeOp(c, f) => AfterInitialize(s, c, f)
    case SetEnvironmentOp(e, f) => AfterInitialize(s, DefaultConfig(e), f)
    case SetLevelOp(l) => AfterSetLevel(s, l)
  }

  /** The state after the calls `ops`, first to last, from `s`. */
  function Run(s: State, ops: seq<Op>): State
    decreases |ops|
  {
    if ops == [] then s else Run(Step(s, ops[0]), ops[1..])
  }

  /** The environment a call applies when it succeeds; None for SetLevel and for failed builds. */
  function Applied(op: Op): Option<Environment>
  {
    match op
    case InitializeOp(c, f) => if f.None? then Some(c.environment) else None
    case SetEnvironmentOp(e, f) => if f.None? then Some(e) else None
    case SetLevelOp(_) => None
  }

  /** The environment of the last call in `ops` that applied a configuration, if any. */
  function LastApplied(ops: seq<Op>): Option<Environment>
    decreases |ops|
  {
    if ops == [] then None
    else if Applied(ops[|ops| - 1]).Some? then Applied(ops[|ops| - 1])
    else LastApplied(ops[..|ops| - 1])
  }

  /** A call that builds and fails. */
  predicate FailedBuild(op: Op)
  {
    (op.InitializeOp? || op.SetEnvironmentOp?) && op.fault.Some?
  }

  /** Running `ops` and then `op` is one more step after running `ops`. */
  lemma {:induction false} RunSnoc(s: State, ops: seq<Op>, op: Op)
    ensures Run(s, ops + [op]) == Step(Run(s, ops), op)
    decreases |ops|
  {
    if ops == [] {
      assert ops + [op] == [op];
    } else {
      assert (ops + [op])[1..] == ops[1..] + [op];
      RunSnoc(Step(s, ops[0]), ops[1..], op);
    }
  }

  /**
   * The recorded environment is that of the most recent successful
   * Initialize or SetEnvironment, and the starting one when there was none.
   */
  lemma {:induction false} CurrentEnvIsLastApplied(s: State, ops: seq<Op>)
    ensures Run(s, ops).currentEnv == match LastApplied(ops) case Some(e) => e case None => s.currentEnv
    decreases |ops|
  {
    if ops != [] {
      var init, last := ops[..|ops| - 1], ops[|ops| - 1];
      assert ops == init + [last];
      RunSnoc(s, init, last);
      CurrentEnvIsLastApplied(s, init);
    }
  }

  /** The strictest of `t` and all of `levels`. */
  function Strictest(t: Level, levels: seq<Level>): Level
    decreases |levels|
  {
    if levels == [] then t
    else Strictest(if levels[0] > t then levels[0] else t, levels[1..])
  }

  /** Strictest is an upper bound of its arguments, and one of them. */
  lemma {:induction false} StrictestBounds(t: Level, levels: seq<Level>)
    ensures Strictest(t, levels) >= t
    ensures forall i :: 0 <= i < |levels| ==> Strictest(t, levels) >= levels[i]
    ensures Strictest(t, levels) == t || Strictest(t, levels) in levels
    decreases |levels|
  {
    if levels != [] {
      var t' := if levels[0] > t then levels[0] else t;
      StrictestBounds(t', levels[1..]);
      forall i | 0 <= i < |levels|
        ensures Strictest(t, levels) >= levels[i]
      {
        if i > 0 { assert levels[i] == levels[1..][i - 1]; }
      }
    }
  }

  /** The calls SetLevel(levels[0]), ..., SetLevel(levels[n-1]). */
  function SetLevels(levels: seq<Level>): (ops: seq<Op>)
    ensures |ops| == |levels|
    ensures forall i :: 0 <= i < |levels| ==> ops[i] == SetLevelOp(levels[i])
  {
    seq(|levels|, i requires 0 <= i < |levels| => SetLevelOp(levels[i]))
  }

  /**
   * A run of SetLevel calls on a present logger leaves it with the strictest
   * of its original minimum level and every requested one, keeps its settings,
   * fields and environment, and re-derives `sugar`. Without a logger the run
   * changes nothing.
   */
  lemma {:induction false} SetLevelsRaiseToStrictest(s: State, levels: seq<Level>)
    ensures s.logger.None? ==> Run(s, SetLevels(levels)) == s
    ensures s.logger.Some? ==>
      (var h := s.logger.value.(threshold := Strictest(s.logger.value.threshold, levels));
       Run(s, SetLevels(levels)) == s.(logger := Some(h), sugar := if levels == [] then s.sugar else Some(Sugared(h))))
    decreases |levels|
  {
    if levels != [] {
      var ops := SetLevels(levels);
      assert ops[1..] == SetLevels(levels[1..]);
      SetLevelsRaiseToStrictest(Step(s, ops[0]), levels[1..]);
    }
  }

  /**
   * The sequence of TestSetLevel: after a successful Initialize with the Test
   * defaults, SetLevel(Debug), SetLevel(Info), SetLevel(Warn), SetLevel(Error)
   * leave the minimum level at Error, so Warn entries stay suppressed.
   */
  lemma TestDefaultsIgnoreLowerLevels(s: State)
    ensures var t := Run(AfterInitialize(s, DefaultConfig(Test), None), SetLevels([DebugLevel, InfoLevel, WarnLevel, ErrorLevel]));
      && t.logger.Some? && t.logger.value.threshold == ErrorLevel
      && !Enabled(t.logger.value.threshold, WarnLevel)
      && t.currentEnv == Test
  {
    var s1 := AfterInitialize(s, DefaultConfig(Test), None);
    SetLevelsRaiseToStrictest(s1, [DebugLevel, InfoLevel, WarnLevel, ErrorLevel]);
    StrictestBounds(ErrorLevel, [DebugLevel, InfoLevel, WarnLevel, ErrorLevel]);
    CurrentEnvIsLastApplied(s1, SetLevels([DebugLevel, InfoLevel, WarnLevel, ErrorLevel]));
  }

  /**
   * Starting from a working facade, any run without a failed build keeps both
   * handles present with `sugar` a view of `logger`; so structured and
   * formatted calls always go to the same engine.
   */
  lemma {:induction false} CoherentWithoutFailedBuild(s: State, ops: seq<Op>)
    requires Coherent(s)
    requires forall i :: 0 <= i < |ops| ==> !FailedBuild(ops[i])
    ensures Coherent(Run(s, ops))
    decreases |ops|
  {
    if ops != [] {
      assert !FailedBuild(ops[0]);
      assert forall i :: 0 <= i < |ops[1..]| ==> ops[1..][i] == ops[i + 1];
      CoherentWithoutFailedBuild(Step(s, ops[0]), ops[1..]);
    }
  }
}
