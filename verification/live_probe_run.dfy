/**
 The live probe as a procedure: it sends, checks and stops at the first failure, and always closes
 with the restoration and the source proof. Tied to the outcome that LiveProbe defines.
 */
module LiveProbeRun {
  import opened Common
  import opened JsonValues
  import Spec = LiveProbe

  class Harness {
    const env: Spec.Env
    var trace: seq<Spec.Exchange>
    var end: Spec.End
    var settingsChanged: bool

    ghost function Session(): Spec.Session
      reads this
    {
      Spec.Session(trace, end)
    }

    constructor (env: Spec.Env)
      ensures this.env == env && Session() == Spec.START && !settingsChanged
    {
      this.env := env;
      trace, end, settingsChanged := [], Spec.Going, false;
    }

    method Perform(a: Spec.Action)
      requires end == Spec.Going
      modifies this`trace, this`end
      ensures Session() == Spec.Perform(env, old(Session()), a)
    {
      hide Spec.Holds;
      match a
      case Check(test) =>
        if !Spec.Holds(env, trace, test) { end := Spec.Failed; }
      case Ask(request, wanted) =>
        var reply := Spec.ReplyAt(env, |trace|);
        trace := trace + [Spec.Exchange(request, reply)];
        if reply.Interrupted? {
          end := Spec.CutShort;
        } else if !Spec.Meets(reply, wanted) {
          end := Spec.Failed;
        }
    }

    method RunScript(script: seq<Spec.Action>)
      modifies this`trace, this`end
      ensures Session() == Spec.RunScript(env, old(Session()), script)
    {
      hide Spec.Holds;
      var i := 0;
      while i < |script|
        invariant 0 <= i <= |script|
        invariant Session() == Spec.RunScript(env, old(Session()), script[..i])
      {
        assert script[..i + 1][..i] == script[..i];
        if end == Spec.Going { Perform(script[i]); }
        i := i + 1;
      }
      assert script[..i] == script;
    }

    /** The guarded part. */
    method Attempt() returns (known: Spec.Known)
      requires Session() == Spec.START && !settingsChanged
      modifies this
      ensures Spec.Attempted(Session(), known, settingsChanged) == Spec.Attempt(env)
    {
      hide Spec.RunScript, Spec.Preparation, Spec.Enable, Spec.Generation, Spec.AlreadyMatched, Spec.Recall;
      RunScript(Spec.Preparation(env));
      known := Spec.Recall(trace);
      if end != Spec.Going || !env.args.live { return; }
      if !Spec.AlreadyMatched(env, known.original) {
        RunScript(Spec.Enable(env, known));
        settingsChanged := end == Spec.Going;
      }
      RunScript(Spec.Generation(env, known));
    }

    /** The restoration of the settings, whatever ended the guarded part. */
    method Restore(known: Spec.Known)
      modifies this`trace, this`end
      ensures Session() == Spec.Restore(env, Spec.Attempted(old(Session()), known, settingsChanged))
    {
      hide Spec.RunScript, Spec.Restoration, Spec.RestoredTo;
      end := Spec.Going;
      RunScript(Spec.Restoration(env, known));
      if end == Spec.Going && !Spec.RestoredTo(known.original, Spec.Payload(trace, 0)) {
        end := Spec.Failed;
      }
    }

    method Run() returns (outcome: Spec.Outcome)
      requires Session() == Spec.START && !settingsChanged
      modifies this
      ensures outcome == Spec.Run(env)
    {
      hide Spec.Attempt, Spec.Restore;
      var known := Attempt();
      var attempted := Spec.Attempted(Spec.Session(trace, end), known, settingsChanged);
      var restored := Spec.Going;
      if env.args.live && settingsChanged && known.original != Null {
        Restore(known);
        if end == Spec.CutShort { return Spec.Outcome(None, false, trace); }
        restored := end;
      }
      var result := if attempted.session.end == Spec.Failed then Some(Spec.FailClosed)
                    else if attempted.session.end == Spec.Going && !env.args.live then Some(Spec.PassPreflight)
                    else None;
      if restored == Spec.Failed { result := Some(Spec.RestoreFailed); }
      if env.after.None? {
        result := Some(Spec.SourcePostimageError);
      } else if !Spec.SourceUnchanged(env) {
        result := Some(Spec.SourceMutationDetected);
      }
      if result.None? { result := Some(Spec.Pass); }
      var passes := result == Some(Spec.Pass) || result == Some(Spec.PassPreflight);
      var returnsInTry := attempted.session.end == Spec.Going && !env.args.live;
      return Spec.Outcome(result, returnsInTry || (attempted.session.end != Spec.CutShort && passes), trace);
    }
  }

  method Probe(env: Spec.Env) returns (outcome: Spec.Outcome)
    ensures outcome == Spec.Run(env)
  {
    var harness := new Harness(env);
    outcome := harness.Run();
  }
}
