/** The command pipeline of the rover: a registry of named circuits, each a
    target operation preceded by pre-workers ("synapses") that turn the
    string arguments of a request into typed ones and followed by
    post-workers, and the dispatcher that runs a circuit by name.
 */
module Brain {
  import opened Common
  import opened Util
  import Leg

  // ---------------------------------------------------------------------
  // Python calls: positional and keyword arguments bound to a signature.

  /** The `*args` and `**kwargs` of a call. */
  datatype Arguments = Arguments(args: seq<Value>, kwargs: map<string, Value>)

  function NoArguments(): Arguments {
    Arguments([], map[])
  }

  /** A formal parameter and its default value, if it has one. */
  datatype Param = Param(name: string, default: Option<Value>)

  predicate NamedIn(k: string, ps: seq<Param>) {
    exists i :: 0 <= i < |ps| && ps[i].name == k
  }

  /** A parameter left to the keywords gets a value from them or from its default. */
  predicate Supplied(p: Param, kwargs: map<string, Value>) {
    p.name in kwargs || p.default.Some?
  }

  function ValueFor(p: Param, kwargs: map<string, Value>): Value
    requires Supplied(p, kwargs)
  {
    if p.name in kwargs then kwargs[p.name] else p.default.value
  }

  /** Binding a call to a signature without `*args` or `**kwargs`: positional
      arguments fill the first parameters, every keyword must name one of the
      others, and each of those needs a keyword or a default. Anything else
      is a `TypeError`. */
  function Bind(ps: seq<Param>, a: Arguments): (r: Result<seq<Value>>)
    ensures r.Ok? <==>
      && |a.args| <= |ps|
      && (forall k :: k in a.kwargs ==> NamedIn(k, ps[|a.args|..]))
      && (forall i :: |a.args| <= i < |ps| ==> Supplied(ps[i], a.kwargs))
    ensures r.Err? ==> r.error == TypeError
    ensures r.Ok? ==>
      && |r.value| == |ps|
      && r.value[..|a.args|] == a.args
      && (forall i :: |a.args| <= i < |ps| ==> r.value[i] == ValueFor(ps[i], a.kwargs))
  {
    var n := |a.args|;
    if n > |ps| then Err(TypeError)
    else if exists k :: k in a.kwargs && !NamedIn(k, ps[n..]) then Err(TypeError)
    else if exists i :: n <= i < |ps| && !Supplied(ps[i], a.kwargs) then Err(TypeError)
    else Ok(a.args + seq(|ps| - n, i requires 0 <= i < |ps| - n => ValueFor(ps[n + i], a.kwargs)))
  }

  /** With no arguments at all, every parameter takes its default. */
  lemma BindDefaults(ps: seq<Param>)
    requires forall i :: 0 <= i < |ps| ==> ps[i].default.Some?
    ensures Bind(ps, NoArguments()).Ok?
    ensures forall i :: 0 <= i < |ps| ==> Bind(ps, NoArguments()).value[i] == ps[i].default.value
  {
  }

  /** A signature takes one keyword argument for its only parameter. */
  lemma BindKeyword(p: Param, v: Value)
    ensures Bind([p], Arguments([], map[p.name := v])) == Ok([v])
  {
    var a := Arguments([], map[p.name := v]);
    assert [p][0].name == p.name;
    assert NamedIn(p.name, [p]);
    assert forall k :: k in a.kwargs ==> NamedIn(k, [p][|a.args|..]);
    var r := Bind([p], a);
    assert r.Ok?;
    assert r.value[0] == v;
    assert r.value == [v];
  }

  // ---------------------------------------------------------------------
  // Synapses: the pre-workers of the standard circuits.

  datatype Synapse = MoveSynapse | SpeedValueSynapse | MoveTimeSynapse | SaySynapse

  /** The signature of each synapse: `move_synapse` takes an optional `async`,
      the others a required first parameter, and `say_synapse` two optional
      numbers after it; every default is `None`. */
  function SynapseParams(s: Synapse): (ps: seq<Param>)
    ensures |ps| == (if s == SaySynapse then 3 else 1)
    ensures ps[0].default.None? <==> s != MoveSynapse
    ensures forall i :: 0 <= i < |ps| && ps[i].default.Some? ==> ps[i].default.value == NoneV
    ensures forall i, j :: 0 <= i < j < |ps| ==> ps[i].name != ps[j].name
  {
    match s
    case MoveSynapse => [Param("async", Some(NoneV))]
    case SpeedValueSynapse => [Param("speed_value", None)]
    case MoveTimeSynapse => [Param("time", None)]
    case SaySynapse => [Param("text", None), Param("amplitude", Some(NoneV)), Param("wpm", Some(NoneV))]
  }

  /** `[str_to_int(v)] if v else []`. */
  function OptionalInt(v: Value): (r: Result<seq<Value>>)
    ensures !Truthy(v) ==> r == Ok([])
    ensures Truthy(v) && CoerceInt(v).Ok? ==> r == Ok([Int(CoerceInt(v).value)])
    ensures Truthy(v) && CoerceInt(v).Err? ==> r == Err(CoerceInt(v).error)
  {
    if !Truthy(v) then Ok([])
    else match CoerceInt(v)
      case Ok(i) => Ok([Int(i)])
      case Err(e) => Err(e)
  }

  /** What a synapse returns for its bound parameters: never keyword
      arguments, never more positional ones than it was given, and for the
      one-parameter synapses none exactly when the argument is falsy. */
  function SynapseBody(s: Synapse, bound: seq<Value>): (r: Result<Arguments>)
    requires |bound| == |SynapseParams(s)|
    ensures r.Ok? ==> r.value.kwargs == map[] && |r.value.args| <= |bound|
    ensures r.Ok? && s != SaySynapse ==> (r.value.args == [] <==> !Truthy(bound[0]))
    ensures r.Ok? && s == SaySynapse ==> |r.value.args| >= 1 && r.value.args[0] == bound[0]
    ensures r.Err? ==> r.error in {AttributeError, XMValueError(Unconvertible)}
  {
    match s
    case MoveSynapse =>
      if !Truthy(bound[0]) then Ok(NoArguments())
      else (match CoerceBool(bound[0])
            case Ok(b) => Ok(Arguments([Bool(b)], map[]))
            case Err(e) => Err(e))
    case SpeedValueSynapse =>
      (match OptionalInt(bound[0])
       case Ok(l) => Ok(Arguments(l, map[]))
       case Err(e) => Err(e))
    case MoveTimeSynapse =>
      (match OptionalInt(bound[0])
       case Ok(l) => Ok(Arguments(l, map[]))
       case Err(e) => Err(e))
    case SaySynapse =>
      (match OptionalInt(bound[1])
       case Err(e) => Err(e)
       case Ok(amplitude) =>
         (match OptionalInt(bound[2])
          case Err(e) => Err(e)
          case Ok(wpm) => Ok(Arguments([bound[0]] + amplitude + wpm, map[]))))
  }

  /** `args, kwargs = p(*args, **kwargs)` for a synapse `p`. */
  function ApplySynapse(s: Synapse, a: Arguments): (r: Result<Arguments>)
    ensures Bind(SynapseParams(s), a).Err? ==> r == Err(TypeError)
    ensures r.Ok? ==> r.value.kwargs == map[] && |r.value.args| <= |SynapseParams(s)|
    ensures r.Err? ==> r.error in {TypeError, AttributeError, XMValueError(Unconvertible)}
  {
    match Bind(SynapseParams(s), a)
    case Err(e) => Err(e)
    case Ok(bound) => SynapseBody(s, bound)
  }

  /** The one-argument synapses on one string argument, given by keyword:
      the empty string gives no arguments, any other string its coercion,
      and a failed coercion its `XMValueError`. Keyword arguments are
      always empty. */
  lemma MoveSynapseOnString(x: string)
    ensures ApplySynapse(MoveSynapse, Arguments([], map["async" := Str(x)])) ==
      if x == "" then Ok(NoArguments())
      else if StrToBool(x).Ok? then Ok(Arguments([Bool(StrToBool(x).value)], map[]))
      else Err(XMValueError(Unconvertible))
  {
    BindKeyword(SynapseParams(MoveSynapse)[0], Str(x));
  }

  lemma SpeedValueSynapseOnString(x: string)
    ensures ApplySynapse(SpeedValueSynapse, Arguments([], map["speed_value" := Str(x)])) ==
      if x == "" then Ok(NoArguments())
      else if StrToInt(x).Ok? then Ok(Arguments([Int(StrToInt(x).value)], map[]))
      else Err(XMValueError(Unconvertible))
  {
    BindKeyword(SynapseParams(SpeedValueSynapse)[0], Str(x));
  }

  lemma MoveTimeSynapseOnString(x: string)
    ensures ApplySynapse(MoveTimeSynapse, Arguments([], map["time" := Str(x)])) ==
      if x == "" then Ok(NoArguments())
      else if StrToInt(x).Ok? then Ok(Arguments([Int(StrToInt(x).value)], map[]))
      else Err(XMValueError(Unconvertible))
  {
    BindKeyword(SynapseParams(MoveTimeSynapse)[0], Str(x));
  }

  /** Without its argument `move_synapse` gives no arguments, since the default is `None`. */
  lemma MoveSynapseWithoutArgument()
    ensures ApplySynapse(MoveSynapse, NoArguments()) == Ok(NoArguments())
  {
    BindDefaults(SynapseParams(MoveSynapse));
  }

  /** A falsy argument (`None`, `''`, `0`, `False`) gives no arguments at all,
      and a truthy one is coerced. */
  lemma OneArgumentSynapse(s: Synapse, v: Value)
    requires s != SaySynapse
    ensures !Truthy(v) ==> ApplySynapse(s, Arguments([v], map[])) == Ok(NoArguments())
    ensures Truthy(v) && s == MoveSynapse ==>
      ApplySynapse(s, Arguments([v], map[])) ==
        if CoerceBool(v).Ok? then Ok(Arguments([Bool(CoerceBool(v).value)], map[])) else Err(CoerceBool(v).error)
    ensures Truthy(v) && s != MoveSynapse ==>
      ApplySynapse(s, Arguments([v], map[])) ==
        if CoerceInt(v).Ok? then Ok(Arguments([Int(CoerceInt(v).value)], map[])) else Err(CoerceInt(v).error)
  {
    var b := Bind(SynapseParams(s), Arguments([v], map[]));
    assert b.Ok?;
    assert b.value == b.value[..1];
  }

  /** `say_synapse(text, amplitude, wpm)`: the text, then each non-empty
      number converted; amplitude is converted first. */
  lemma SaySynapseOnStrings(text: string, amplitude: string, wpm: string)
    ensures var r := ApplySynapse(SaySynapse, Arguments([Str(text), Str(amplitude), Str(wpm)], map[]));
      && (amplitude != "" && StrToInt(amplitude).Err? ==> r == Err(XMValueError(Unconvertible)))
      && ((amplitude == "" || StrToInt(amplitude).Ok?) && wpm != "" && StrToInt(wpm).Err? ==>
            r == Err(XMValueError(Unconvertible)))
      && ((amplitude == "" || StrToInt(amplitude).Ok?) && (wpm == "" || StrToInt(wpm).Ok?) ==>
            r == Ok(Arguments([Str(text)]
                              + (if amplitude == "" then [] else [Int(StrToInt(amplitude).value)])
                              + (if wpm == "" then [] else [Int(StrToInt(wpm).value)]), map[])))
  {
    var a := Arguments([Str(text), Str(amplitude), Str(wpm)], map[]);
    var b := Bind(SynapseParams(SaySynapse), a);
    assert b.Ok?;
    assert b.value == b.value[..3];
  }

  /** `say_synapse` drops the keyword names, so a `wpm` given without an
      amplitude reaches `Mouth.say` positionally, as its amplitude, and the
      speed stays at its default of 130. */
  lemma SayWpmAloneBecomesAmplitude(text: string, wpm: string, input: seq<byte>)
    requires wpm != "" && StrToInt(wpm).Ok?
    ensures ApplySynapse(SaySynapse, Arguments([Str(text)], map["wpm" := Str(wpm)])) ==
      Ok(Arguments([Str(text), Int(StrToInt(wpm).value)], map[]))
    ensures TargetRun(Say, Arguments([Str(text), Int(StrToInt(wpm).value)], map[]), input) ==
      Run(Ok(NoneV), [], 0, [Said(Str(text), Int(StrToInt(wpm).value), Int(130), Str("espeak"))])
  {
    var ps := SynapseParams(SaySynapse);
    var a := Arguments([Str(text)], map["wpm" := Str(wpm)]);
    assert ps[1..][1].name == "wpm";
    assert NamedIn("wpm", ps[1..]);
    var b := Bind(ps, a);
    assert b.Ok?;
    assert b.value == [Str(text), NoneV, Str(wpm)];
    assert OptionalInt(NoneV) == Ok([]);
    assert OptionalInt(Str(wpm)) == Ok([Int(StrToInt(wpm).value)]);
    assert [Str(text)] + [] + [Int(StrToInt(wpm).value)] == [Str(text), Int(StrToInt(wpm).value)];
    var t := Bind(TargetParams(Say), Arguments([Str(text), Int(StrToInt(wpm).value)], map[]));
    assert t.Ok?;
    assert t.value == [Str(text), Int(StrToInt(wpm).value), Int(130), Str("espeak")];
  }

  /** The same with concrete values: `say("hi", wpm="100")` speaks at amplitude 100. */
  lemma SayWithWpm100()
    ensures ApplySynapse(SaySynapse, Arguments([Str("hi")], map["wpm" := Str("100")])) ==
      Ok(Arguments([Str("hi"), Int(100)], map[]))
  {
    assert StrToInt("100") == Ok(100) by {
      assert "100"[..2] == "10" && "10"[..1] == "1" && "1"[..0] == "";
    }
    SayWpmAloneBecomesAmplitude("hi", "100", []);
  }

  /** The pre-workers, in order, each fed what the previous one returned. */
  function RunPre(pre: seq<Synapse>, a: Arguments): (r: Result<Arguments>)
    ensures pre == [] ==> r == Ok(a)
    ensures pre != [] && r.Ok? ==> r.value.kwargs == map[]
    ensures r.Err? ==> r.error in {TypeError, AttributeError, XMValueError(Unconvertible)}
  {
    if pre == [] then Ok(a)
    else match ApplySynapse(pre[0], a)
      case Err(e) => Err(e)
      case Ok(b) => RunPre(pre[1..], b)
  }

  /** Running two chains one after the other is running their concatenation:
      the output of the first is the input of the second, and an error stops
      the whole chain. */
  lemma {:induction false} RunPreAppend(p: seq<Synapse>, q: seq<Synapse>, a: Arguments)
    ensures RunPre(p + q, a) == match RunPre(p, a) case Err(e) => Err(e) case Ok(b) => RunPre(q, b)
  {
    if p == [] {
      assert p + q == q;
    } else {
      assert (p + q)[1..] == p[1..] + q;
      match ApplySynapse(p[0], a)
      case Err(e) =>
      case Ok(b) => RunPreAppend(p[1..], q, b);
    }
  }

  // ---------------------------------------------------------------------
  // Targets and circuits.

  /** The operations the standard circuits lead to. */
  datatype Target =
    | Forward | Backward | Left | Right | Stop | SetSpeed | SetMoveTime // Legs
    | Say | Shutup                                                    // Mouth
    | OpenEyes | CloseEyes                                            // Eyes

  /** The signature of each target, without `self`. */
  function TargetParams(t: Target): (ps: seq<Param>)
    ensures t in {Forward, Backward, Left, Right} ==> ps == [Param("async", Some(Bool(false)))]
    ensures t in {Stop, Shutup, OpenEyes, CloseEyes} <==> ps == []
    ensures t in {SetSpeed, SetMoveTime} ==> |ps| == 1 && ps[0].default.None?
    ensures forall i :: 0 <= i < |ps| && ps[i].default.None? ==> i == 0 && t in {SetSpeed, SetMoveTime, Say}
  {
    match t
    case Forward => [Param("async", Some(Bool(false)))]
    case Backward => [Param("async", Some(Bool(false)))]
    case Left => [Param("async", Some(Bool(false)))]
    case Right => [Param("async", Some(Bool(false)))]
    case Stop => []
    case SetSpeed => [Param("speed_value", None)]
    case SetMoveTime => [Param("time", None)]
    case Say => [Param("text", None), Param("amplitude", Some(Int(40))), Param("wpm", Some(Int(130))),
                 Param("prog", Some(Str("espeak")))]
    case Shutup => []
    case OpenEyes => []
    case CloseEyes => []
  }

  /** The documentation of a target, standing for its docstring. */
  function Doc(t: Target): string {
    match t
    case Forward => "Legs.forward"
    case Backward => "Legs.backward"
    case Left => "Legs.left"
    case Right => "Legs.right"
    case Stop => "Legs.stop"
    case SetSpeed => "Legs.set_speed"
    case SetMoveTime => "Legs.set_movetime"
    case Say => "Mouth.say"
    case Shutup => "Mouth.shutup"
    case OpenEyes => "Eyes.open"
    case CloseEyes => "Eyes.close"
  }

  /** A post-worker; it only observes the value it is given. */
  datatype PostWorker = Notify(tag: string)

  /** What the mouth, the eyes and the post-workers are asked to do. */
  datatype Event =
    | Said(text: Value, amplitude: Value, wpm: Value, prog: Value)
    | ShutUp
    | EyesOpened
    | EyesClosed
    | PostWorked(tag: string, arg: Option<Value>)

  datatype Circuit = Circuit(pre: seq<Synapse>, target: Target, post: seq<PostWorker>)

  /** `pre or []`. */
  function OrEmpty<T>(o: Option<seq<T>>): seq<T> {
    if o.None? then [] else o.value
  }

  /** Everything one dispatch does: its result, the bytes it writes to the
      serial port, how many reply bytes it consumes, and the events it causes. */
  datatype Run = Run(result: Result<Value>, written: seq<byte>, consumed: nat, events: seq<Event>)

  function Failed(e: Error): Run {
    Run(Err(e), [], 0, [])
  }

  /** A `Legs` operation as a target: it returns `None` or raises. */
  function LegsRun(cmd: Leg.Command, input: seq<byte>): (run: Run)
    ensures run.consumed <= |input|
    ensures run.result.Ok? <==> Leg.Perform(cmd, input).outcome.Pass?
    ensures run.result.Ok? ==> run.result.value == NoneV
    ensures run.result.Err? ==> run.result.error == Leg.Perform(cmd, input).outcome.error
    ensures run.written == Leg.Perform(cmd, input).written && run.events == []
  {
    var e := Leg.Perform(cmd, input);
    Run(if e.outcome.Pass? then Ok(NoneV) else Err(e.outcome.error), e.written, e.consumed, [])
  }

  /** Calling a target with its arguments. `set_speed` and `set_movetime`
      first check that their argument is an integer. */
  function TargetRun(t: Target, a: Arguments, input: seq<byte>): (run: Run)
    ensures run.consumed <= |input|
    ensures Bind(TargetParams(t), a).Err? ==> run == Failed(TypeError)
    ensures run.result.Ok? ==> run.result.value == NoneV
    ensures t in {Say, Shutup, OpenEyes, CloseEyes} ==> run.written == [] && run.consumed == 0
    ensures t in {Forward, Backward, Left, Right, Stop, SetSpeed, SetMoveTime} ==> run.events == []
    ensures |run.events| <= 1
  {
    match Bind(TargetParams(t), a)
    case Err(e) => Failed(e)
    case Ok(b) =>
      match t
      case Forward => LegsRun(Leg.Move(Leg.Forward, Truthy(b[0])), input)
      case Backward => LegsRun(Leg.Move(Leg.Backward, Truthy(b[0])), input)
      case Left => LegsRun(Leg.Move(Leg.Left, Truthy(b[0])), input)
      case Right => LegsRun(Leg.Move(Leg.Right, Truthy(b[0])), input)
      case Stop => LegsRun(Leg.Halt, input)
      case SetSpeed =>
        if AssertInt(b[0]).Fail? then Failed(AssertInt(b[0]).error)
        else LegsRun(Leg.Speed(IntOf(b[0])), input)
      case SetMoveTime =>
        if AssertInt(b[0]).Fail? then Failed(AssertInt(b[0]).error)
        else LegsRun(Leg.MoveTime(IntOf(b[0])), input)
      case Say => Run(Ok(NoneV), [], 0, [Said(b[0], b[1], b[2], b[3])])
      case Shutup => Run(Ok(NoneV), [], 0, [ShutUp])
      case OpenEyes => Run(Ok(NoneV), [], 0, [EyesOpened])
      case CloseEyes => Run(Ok(NoneV), [], 0, [EyesClosed])
  }

  /** `p(r) if r else p()` for each post-worker `p`. */
  function PostEvents(post: seq<PostWorker>, r: Value): (evs: seq<Event>)
    ensures |evs| == |post|
    ensures forall i :: 0 <= i < |post| ==> evs[i].PostWorked? && evs[i].tag == post[i].tag
    ensures forall i :: 0 <= i < |post| ==> (evs[i].arg.Some? <==> Truthy(r))
    ensures forall i :: 0 <= i < |post| && evs[i].arg.Some? ==> evs[i].arg.value == r
  {
    seq(|post|, i requires 0 <= i < |post| => PostWorked(post[i].tag, if Truthy(r) then Some(r) else None))
  }

  /** The post-workers run only when the target returned; they add their
      events and leave the result and the line traffic as they were. */
  function AfterTarget(t: Run, post: seq<PostWorker>): (run: Run)
    ensures run.result == t.result && run.written == t.written && run.consumed == t.consumed
    ensures t.result.Err? ==> run.events == t.events
    ensures t.result.Ok? ==> run.events == t.events + PostEvents(post, t.result.value)
  {
    if t.result.Err? then t else t.(events := t.events + PostEvents(post, t.result.value))
  }

  /** A keyword argument that `call(self, name, *args, **kwargs)` would bind
      a second time. */
  predicate RebindsCallParameter(a: Arguments) {
    "self" in a.kwargs || "name" in a.kwargs
  }

  /** `Brain.call(name, *args, **kwargs)` on a circuit table. */
  function CallRun(circuits: map<string, Circuit>, name: string, a: Arguments, input: seq<byte>): (run: Run)
    ensures run.consumed <= |input|
    ensures RebindsCallParameter(a) ==> run == Failed(TypeError)
    ensures !RebindsCallParameter(a) && name !in circuits ==> run == Failed(KeyError(name))
    ensures run.result.Ok? ==> name in circuits && run.result.value == NoneV
  {
    if RebindsCallParameter(a) then Failed(TypeError) // a second value for `self` or `name`
    else if name !in circuits then Failed(KeyError(name))
    else
      var c := circuits[name];
      match RunPre(c.pre, a)
      case Err(e) => Failed(e)
      case Ok(b) =>
        AfterTarget(TargetRun(c.target, b, input), c.post)
  }

  /** An unregistered name raises `KeyError` before anything runs. */
  lemma CallUnknownName(circuits: map<string, Circuit>, name: string, a: Arguments, input: seq<byte>)
    requires name !in circuits && !RebindsCallParameter(a)
    ensures CallRun(circuits, name, a, input) == Failed(KeyError(name))
  {
  }

  /** A dispatch returns what the target returned, whatever the post-workers
      do, and each post-worker is given that result exactly when it is truthy. */
  lemma CallResultIsTargetResult(circuits: map<string, Circuit>, name: string, a: Arguments,
                                 input: seq<byte>, b: Arguments)
    requires name in circuits && !RebindsCallParameter(a)
    requires RunPre(circuits[name].pre, a) == Ok(b)
    ensures var run := CallRun(circuits, name, a, input);
      var t := TargetRun(circuits[name].target, b, input);
      && run.result == t.result
      && run.written == t.written
      && (t.result.Ok? ==>
            forall i :: 0 <= i < |circuits[name].post| ==>
              run.events[|t.events| + i] ==
                PostWorked(circuits[name].post[i].tag,
                           if Truthy(t.result.value) then Some(t.result.value) else None))
  {
    var run := CallRun(circuits, name, a, input);
    var t := TargetRun(circuits[name].target, b, input);
    if t.result.Ok? {
      assert run.events == t.events + PostEvents(circuits[name].post, t.result.value);
    }
  }

  // ---------------------------------------------------------------------
  // The circuit table `Body.__init__` builds.

  /** The table `Body.__init__` builds: every circuit has at most one
      pre-worker and no post-workers. */
  function StandardCircuits(): (m: map<string, Circuit>)
    ensures forall n :: n in m ==> |m[n].pre| <= 1 && m[n].post == []
  {
    map[
      "forward" := Circuit([MoveSynapse], Forward, []),
      "backward" := Circuit([MoveSynapse], Backward, []),
      "left" := Circuit([MoveSynapse], Left, []),
      "right" := Circuit([MoveSynapse], Right, []),
      "stop" := Circuit([], Stop, []),
      "set_speed" := Circuit([SpeedValueSynapse], SetSpeed, []),
      "set_movetime" := Circuit([MoveTimeSynapse], SetMoveTime, []),
      "say" := Circuit([SaySynapse], Say, []),
      "shutup" := Circuit([], Shutup, []),
      "open_eyes" := Circuit([], OpenEyes, []),
      "close_eyes" := Circuit([], CloseEyes, [])
    ]
  }

  /** The eleven circuit names, none with post-workers. */
  lemma StandardCircuitsShape()
    ensures StandardCircuits().Keys == {"forward", "backward", "left", "right", "stop", "set_speed",
                                        "set_movetime", "say", "shutup", "open_eyes", "close_eyes"}
    ensures forall n :: n in StandardCircuits() ==> StandardCircuits()[n].post == []
  {
  }

  /** A circuit with one pre-worker and no post-workers is that pre-worker
      followed by the target. */
  lemma CallOneSynapse(circuits: map<string, Circuit>, name: string, s: Synapse, t: Target,
                       a: Arguments, input: seq<byte>)
    requires name in circuits && circuits[name] == Circuit([s], t, []) && !RebindsCallParameter(a)
    ensures CallRun(circuits, name, a, input) ==
      match ApplySynapse(s, a) case Err(e) => Failed(e) case Ok(b) => TargetRun(t, b, input)
  {
    assert RunPre([s], a) == match ApplySynapse(s, a) case Err(e) => Err(e) case Ok(b) => Ok(b);
    match ApplySynapse(s, a)
    case Err(e) =>
    case Ok(b) =>
      var r := TargetRun(t, b, input);
      if r.result.Ok? {
        assert PostEvents([], r.result.value) == [];
        assert r.events + [] == r.events;
      }
  }

  /** The movement signature `(async=False)` on no argument and on one. */
  lemma MovementBinding(async: bool)
    ensures Bind([Param("async", Some(Bool(false)))], NoArguments()) == Ok([Bool(false)])
    ensures Bind([Param("async", Some(Bool(false)))], Arguments([Bool(async)], map[])) == Ok([Bool(async)])
  {
    var ps := [Param("async", Some(Bool(false)))];
    BindDefaults(ps);
    var d := Bind(ps, NoArguments());
    assert d.value == [d.value[0]];
    var b := Bind(ps, Arguments([Bool(async)], map[]));
    assert b.Ok?;
    assert b.value == b.value[..1];
  }

  /** A movement target moves asynchronously exactly when its `async` argument is truthy. */
  lemma MoveTargetRun(t: Target, m: Leg.Motion, async: bool, input: seq<byte>)
    requires (t, m) in {(Forward, Leg.Forward), (Backward, Leg.Backward), (Left, Leg.Left), (Right, Leg.Right)}
    ensures TargetRun(t, NoArguments(), input) == LegsRun(Leg.Move(m, false), input)
    ensures TargetRun(t, Arguments([Bool(async)], map[]), input) == LegsRun(Leg.Move(m, async), input)
  {
    MovementBinding(async);
    assert TargetParams(t) == [Param("async", Some(Bool(false)))];
  }

  /** A movement circuit called with `async=x`: the empty string moves
      synchronously, a string `str_to_bool` rejects writes nothing, and
      otherwise the opcode goes out lowered exactly when `x` is true. */
  lemma MoveCircuitOnString(circuits: map<string, Circuit>, name: string, t: Target, m: Leg.Motion,
                            x: string, input: seq<byte>)
    requires name in circuits && circuits[name] == Circuit([MoveSynapse], t, [])
    requires (t, m) in {(Forward, Leg.Forward), (Backward, Leg.Backward), (Left, Leg.Left), (Right, Leg.Right)}
    ensures var run := CallRun(circuits, name, Arguments([], map["async" := Str(x)]), input);
      && (x != "" && StrToBool(x).Err? ==> run == Failed(XMValueError(Unconvertible)))
      && (x == "" ==> run == LegsRun(Leg.Move(m, false), input))
      && (x != "" && StrToBool(x).Ok? ==> run == LegsRun(Leg.Move(m, StrToBool(x).value), input))
  {
    MoveSynapseOnString(x);
    CallOneSynapse(circuits, name, MoveSynapse, t, Arguments([], map["async" := Str(x)]), input);
    if x != "" && StrToBool(x).Ok? {
      MoveTargetRun(t, m, StrToBool(x).value, input);
    } else {
      MoveTargetRun(t, m, false, input);
    }
  }

  /** `set_speed` and `set_movetime` on their bound argument: an integer (or
      a `bool`) goes to the `Legs` operation, and any other value fails
      `assert_int` with nothing written. */
  lemma NumberTargetRun(t: Target, v: Value, input: seq<byte>)
    requires t == SetSpeed || t == SetMoveTime
    ensures TargetRun(t, NoArguments(), input) == Failed(TypeError)
    ensures !(v.Int? || v.Bool?) ==>
      TargetRun(t, Arguments([v], map[]), input) == Failed(XMValueError(WrongType("int", TypeName(v))))
    ensures v.Int? ==>
      TargetRun(t, Arguments([v], map[]), input) ==
        LegsRun(if t == SetSpeed then Leg.Speed(v.i) else Leg.MoveTime(v.i), input)
  {
    var b := Bind(TargetParams(t), Arguments([v], map[]));
    assert b.Ok?;
    assert b.value == b.value[..1];
  }

  /** `set_speed` called with `speed_value=x`: an empty string leaves the
      target without its argument, a string that is not a number writes
      nothing, and a number is passed on to `Legs.set_speed`. */
  lemma SetSpeedCircuitOnString(circuits: map<string, Circuit>, x: string, input: seq<byte>)
    requires "set_speed" in circuits && circuits["set_speed"] == Circuit([SpeedValueSynapse], SetSpeed, [])
    ensures var run := CallRun(circuits, "set_speed", Arguments([], map["speed_value" := Str(x)]), input);
      && (x == "" ==> run == Failed(TypeError))
      && (x != "" && StrToInt(x).Err? ==> run == Failed(XMValueError(Unconvertible)))
      && (x != "" && StrToInt(x).Ok? ==> run == LegsRun(Leg.Speed(StrToInt(x).value), input))
  {
    SpeedValueSynapseOnString(x);
    CallOneSynapse(circuits, "set_speed", SpeedValueSynapse, SetSpeed, Arguments([], map["speed_value" := Str(x)]), input);
    NumberTargetRun(SetSpeed, Int(if x != "" && StrToInt(x).Ok? then StrToInt(x).value else 0), input);
  }

  /** The same for `set_movetime` with `time=x`. */
  lemma SetMoveTimeCircuitOnString(circuits: map<string, Circuit>, x: string, input: seq<byte>)
    requires "set_movetime" in circuits && circuits["set_movetime"] == Circuit([MoveTimeSynapse], SetMoveTime, [])
    ensures var run := CallRun(circuits, "set_movetime", Arguments([], map["time" := Str(x)]), input);
      && (x == "" ==> run == Failed(TypeError))
      && (x != "" && StrToInt(x).Err? ==> run == Failed(XMValueError(Unconvertible)))
      && (x != "" && StrToInt(x).Ok? ==> run == LegsRun(Leg.MoveTime(StrToInt(x).value), input))
  {
    MoveTimeSynapseOnString(x);
    CallOneSynapse(circuits, "set_movetime", MoveTimeSynapse, SetMoveTime, Arguments([], map["time" := Str(x)]), input);
    NumberTargetRun(SetMoveTime, Int(if x != "" && StrToInt(x).Ok? then StrToInt(x).value else 0), input);
  }

  /** The standard table holds the circuits the lemmas above are about. */
  lemma StandardCircuitsEntries()
    ensures var m := StandardCircuits();
      && m["forward"] == Circuit([MoveSynapse], Forward, [])
      && m["backward"] == Circuit([MoveSynapse], Backward, [])
      && m["left"] == Circuit([MoveSynapse], Left, [])
      && m["right"] == Circuit([MoveSynapse], Right, [])
      && m["stop"] == Circuit([], Stop, [])
      && m["set_speed"] == Circuit([SpeedValueSynapse], SetSpeed, [])
      && m["set_movetime"] == Circuit([MoveTimeSynapse], SetMoveTime, [])
      && m["say"] == Circuit([SaySynapse], Say, [])
      && m["shutup"] == Circuit([], Shutup, [])
      && m["open_eyes"] == Circuit([], OpenEyes, [])
      && m["close_eyes"] == Circuit([], CloseEyes, [])
  {
  }

  /** `speed_value="255"` puts 'X' 0xFF on the wire and succeeds exactly when
      the ack of 'X' comes back; `speed_value="256"` fails with nothing written. */
  lemma SetSpeedEndToEnd(input: seq<byte>)
    ensures var run := CallRun(StandardCircuits(), "set_speed", Arguments([], map["speed_value" := Str("255")]), input);
      && run.written == [0x58, 0xFF]
      && (|input| > 0 ==> (run.result == Ok(NoneV) <==> input[0] == 0x59))
    ensures CallRun(StandardCircuits(), "set_speed", Arguments([], map["speed_value" := Str("256")]), input)
            == Failed(XMValueError(OutOfRange(256, 0, 255)))
  {
    assert StrToInt("255") == Ok(255) by {
      assert "255"[..2] == "25" && "25"[..1] == "2" && "2"[..0] == "";
    }
    assert StrToInt("256") == Ok(256) by {
      assert "256"[..2] == "25" && "25"[..1] == "2" && "2"[..0] == "";
    }
    StandardCircuitsEntries();
    SetSpeedCircuitOnString(StandardCircuits(), "255", input);
    SetSpeedCircuitOnString(StandardCircuits(), "256", input);
    Leg.SpeedFraming(255, input);
    Leg.SpeedFraming(256, input);
  }

  /** The motion underneath: an async forward sends 'f' and succeeds exactly when 0x67 comes back. */
  lemma ForwardAsyncRun(input: seq<byte>)
    ensures LegsRun(Leg.Move(Leg.Forward, true), input).written == [0x66]
    ensures |input| > 0 ==> (LegsRun(Leg.Move(Leg.Forward, true), input).result == Ok(NoneV) <==> input[0] == 0x67)
  {
    Leg.MoveAsync(Leg.Forward, input);
    Leg.MessageTable();
  }

  /** `async="1"` sends 'f' and succeeds exactly when 0x67 comes back. */
  lemma ForwardAsyncEndToEnd(input: seq<byte>)
    ensures var run := CallRun(StandardCircuits(), "forward", Arguments([], map["async" := Str("1")]), input);
      && run.written == [0x66]
      && (|input| > 0 ==> (run.result == Ok(NoneV) <==> input[0] == 0x67))
  {
    assert StrToBool("1") == Ok(true) by {
      assert Lower("1") == "1";
      assert "1"[..0] == "";
    }
    StandardCircuitsEntries();
    MoveCircuitOnString(StandardCircuits(), "forward", Forward, Leg.Forward, "1", input);
    ForwardAsyncRun(input);
  }

  /** The pre-worker loop of `call`: each synapse is fed what the previous one
      returned, and the first error ends the loop. */
  method RunPreWorkers(pre: seq<Synapse>, a: Arguments) returns (r: Result<Arguments>)
    ensures r == RunPre(pre, a)
  {
    var cur := a;
    var i := 0;
    while i < |pre|
      invariant i <= |pre|
      invariant RunPre(pre, a) == RunPre(pre[i..], cur)
    {
      assert pre[i..][1..] == pre[i + 1..];
      var next := ApplySynapse(pre[i], cur);
      if next.Err? {
        return Err(next.error);
      }
      cur := next.value;
      i := i + 1;
    }
    assert pre[i..] == [];
    return Ok(cur);
  }

  // ---------------------------------------------------------------------
  // The objects.

  class Body {
    const legs: Leg.Legs
    var circuits: map<string, Circuit>
    /** What the mouth, the eyes and the post-workers have been asked to do. */
    var events: seq<Event>

    /** `Body.__init__`: the eleven standard circuits over a `Legs` on `serial`. */
    constructor (serial: Leg.Serial)
      ensures legs.serial == serial && circuits == StandardCircuits() && events == []
    {
      legs := new Leg.Legs(serial);
      circuits := map[];
      events := [];
      new;
      AddCircuit("forward", Forward, Some([MoveSynapse]), None);
      AddCircuit("backward", Backward, Some([MoveSynapse]), None);
      AddCircuit("left", Left, Some([MoveSynapse]), None);
      AddCircuit("right", Right, Some([MoveSynapse]), None);
      AddCircuit("stop", Stop, None, None);
      AddCircuit("set_speed", SetSpeed, Some([SpeedValueSynapse]), None);
      AddCircuit("set_movetime", SetMoveTime, Some([MoveTimeSynapse]), None);
      AddCircuit("say", Say, Some([SaySynapse]), None);
      AddCircuit("shutup", Shutup, None, None);
      AddCircuit("open_eyes", OpenEyes, None, None);
      AddCircuit("close_eyes", CloseEyes, None, None);
    }

    /** `add_circuit`: stores the circuit under `name`, replacing any earlier
        one of that name and leaving the others alone. */
    method AddCircuit(name: string, target: Target, pre: Option<seq<Synapse>>, post: Option<seq<PostWorker>>)
      modifies this
      ensures circuits == old(circuits)[name := Circuit(OrEmpty(pre), target, OrEmpty(post))]
      ensures circuits.Keys == old(circuits).Keys + {name}
      ensures forall n :: n in old(circuits) && n != name ==> circuits[n] == old(circuits)[n]
      ensures events == old(events)
    {
      circuits := circuits[name := Circuit(OrEmpty(pre), target, OrEmpty(post))];
    }

    /** Calls a target with its arguments. */
    method Invoke(t: Target, a: Arguments) returns (r: Result<Value>)
      modifies legs.serial, this`events
      ensures var run := TargetRun(t, a, old(legs.serial.input));
        && r == run.result
        && legs.serial.written == old(legs.serial.written) + run.written
        && legs.serial.input == old(legs.serial.input)[run.consumed..]
        && events == old(events) + run.events
    {
      var bound := Bind(TargetParams(t), a);
      if bound.Err? {
        return Err(bound.error);
      }
      var b := bound.value;
      var o: Outcome := Pass;
      match t {
      case Forward => o := legs.Forward(Truthy(b[0]));
      case Backward => o := legs.Backward(Truthy(b[0]));
      case Left => o := legs.Left(Truthy(b[0]));
      case Right => o := legs.Right(Truthy(b[0]));
      case Stop => o := legs.Stop();
      case SetSpeed =>
        var check := AssertInt(b[0]);
        if check.Fail? {
          return Err(check.error);
        }
        o := legs.SetSpeed(IntOf(b[0]));
      case SetMoveTime =>
        var check := AssertInt(b[0]);
        if check.Fail? {
          return Err(check.error);
        }
        o := legs.SetMoveTime(IntOf(b[0]));
      case Say => events := events + [Said(b[0], b[1], b[2], b[3])];
      case Shutup => events := events + [ShutUp];
      case OpenEyes => events := events + [EyesOpened];
      case CloseEyes => events := events + [EyesClosed];
      }
      r := if o.Pass? then Ok(NoneV) else Err(o.error);
    }

    /** The second half of `call`: the target, then, if it returned, the
        post-workers. */
    method RunCircuit(c: Circuit, b: Arguments) returns (r: Result<Value>)
      modifies legs.serial, this`events
      ensures var run := AfterTarget(TargetRun(c.target, b, old(legs.serial.input)), c.post);
        && r == run.result
        && legs.serial.written == old(legs.serial.written) + run.written
        && legs.serial.input == old(legs.serial.input)[run.consumed..]
        && events == old(events) + run.events
    {
      ghost var t := TargetRun(c.target, b, legs.serial.input);
      r := Invoke(c.target, b);
      assert r == t.result;
      if r.Ok? {
        PostWorkAll(c.post, r.value);
      }
    }

    /** The post-worker loop of `call`: each post-worker gets the target's
        result when it is truthy, and nothing otherwise. */
    method PostWorkAll(post: seq<PostWorker>, r: Value)
      modifies this`events
      ensures events == old(events) + PostEvents(post, r)
    {
      var arg := if Truthy(r) then Some(r) else None;
      var j := 0;
      while j < |post|
        invariant j <= |post|
        invariant events == old(events) + PostEvents(post[..j], r)
      {
        PostWork(post[j], arg);
        assert PostEvents(post[..j + 1], r) == PostEvents(post[..j], r) + [PostWorked(post[j].tag, arg)];
        j := j + 1;
      }
      assert post[..j] == post;
    }

    /** Calls a post-worker; what it returns is dropped. */
    method PostWork(p: PostWorker, arg: Option<Value>)
      modifies this`events
      ensures events == old(events) + [PostWorked(p.tag, arg)]
    {
      events := events + [PostWorked(p.tag, arg)];
    }
  }

  /** The help entry of a circuit. */
  datatype Help = Help(doc: string)

  class Brain {
    const body: Body

    constructor (body: Body)
      ensures this.body == body
    {
      this.body := body;
    }

    /** `get_help`: one entry per registered circuit, with its target's documentation. */
    method GetHelp() returns (help: map<string, Help>)
      ensures help.Keys == body.circuits.Keys
      ensures forall n :: n in help ==> help[n] == Help(Doc(body.circuits[n].target))
    {
      help := map[];
      var todo := body.circuits.Keys;
      while todo != {}
        invariant todo <= body.circuits.Keys
        invariant help.Keys == body.circuits.Keys - todo
        invariant forall n :: n in help ==> help[n] == Help(Doc(body.circuits[n].target))
        decreases todo
      {
        var n :| n in todo;
        help := help[n := Help(Doc(body.circuits[n].target))];
        todo := todo - {n};
      }
    }

    /** `call`: looks the circuit up, threads the arguments through its
        pre-workers, calls the target, hands the result to the post-workers
        and returns it. */
    method Call(name: string, a: Arguments) returns (r: Result<Value>)
      modifies body.legs.serial, body`events
      ensures var run := CallRun(old(body.circuits), name, a, old(body.legs.serial.input));
        && r == run.result
        && body.legs.serial.written == old(body.legs.serial.written) + run.written
        && body.legs.serial.input == old(body.legs.serial.input)[run.consumed..]
        && body.events == old(body.events) + run.events
    {
      if RebindsCallParameter(a) {
        return Err(TypeError);
      }
      if name !in body.circuits {
        return Err(KeyError(name));
      }
      var c := body.circuits[name];
      var pre := RunPreWorkers(c.pre, a);
      if pre.Err? {
        return Err(pre.error);
      }
      assert CallRun(body.circuits, name, a, body.legs.serial.input) ==
        AfterTarget(TargetRun(c.target, pre.value, body.legs.serial.input), c.post);
      r := body.RunCircuit(c, pre.value);
    }
  }
}
