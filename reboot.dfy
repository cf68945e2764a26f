/** rebootMachine (provisioner.go:347-406): initiate the reboot, poll the
    progress command until it reports the reboot finished (0), cancelled (1)
    or unreachable (a transport error), then run the validation command until
    it succeeds with exit code 0. */
module Rebooting {
  import opened Outcomes
  import opened Host
  import opened Configuration

  /** The channel afterwards and the error. */
  datatype Rebooted = Rebooted(channel: Channel, err: Option<Error>)

  /** n copies of one event. */
  function Repeat(e: Event, n: nat): (r: seq<Event>)
    ensures |r| == n
    ensures forall i :: 0 <= i < n ==> r[i] == e
  {
    if n == 0 then [] else [e] + Repeat(e, n - 1)
  }

  // ---------------------------------------------------------------------------
  // The polling loop (provisioner.go:362-383)

  /** A progress answer that leaves the polling loop. */
  predicate EndsPolling(a: Response) {
    a.failed || a.exitCode == 0 || a.exitCode == 1
  }

  /** Exit code 0 runs the complete command once, ignoring its outcome; exit
      code 1 and a transport error stop without it; any other code polls again. */
  function Poll(progress: string, complete: string, ch: Channel): Channel
    decreases |ch.responses|
  {
    var answer := Next(ch.responses);
    var polled := Issued(ch, progress);
    if answer.failed then polled
    else if answer.exitCode == 0 then Issued(polled, complete)
    else if answer.exitCode == 1 then polled
    else Poll(progress, complete, polled)
  }

  /** The index of the first answer that ends the polling, or the number of
      answers when none does (the next call then fails for want of an answer). */
  function PollStop(rs: seq<Response>): (k: nat)
    ensures k <= |rs|
    ensures forall i :: 0 <= i < k ==> !EndsPolling(rs[i])
    ensures k < |rs| ==> EndsPolling(rs[k])
  {
    if rs == [] || EndsPolling(rs[0]) then 0 else 1 + PollStop(rs[1..])
  }

  /** The answers left after dropping n of them. */
  function Drop(rs: seq<Response>, n: nat): seq<Response> {
    if n <= |rs| then rs[n..] else []
  }

  /** Polling issues the progress command once per answer up to and including
      the one that ends it, then the complete command exactly when that answer
      was a successful exit code 0. */
  lemma {:induction false} PollClosedForm(progress: string, complete: string, ch: Channel)
    ensures var k := PollStop(ch.responses);
      var completed := k < |ch.responses| && !ch.responses[k].failed && ch.responses[k].exitCode == 0;
      Poll(progress, complete, ch)
      == Channel(Drop(ch.responses, k + 1 + (if completed then 1 else 0)),
                 ch.log + Repeat(Ran(progress), k + 1) + (if completed then [Ran(complete)] else []))
    decreases |ch.responses|
  {
    var rs := ch.responses;
    var polled := Issued(ch, progress);
    if rs != [] && !EndsPolling(rs[0]) {
      PollClosedForm(progress, complete, polled);
      var k' := PollStop(polled.responses);
      assert polled.responses == rs[1..];
      assert PollStop(rs) == k' + 1;
      assert Repeat(Ran(progress), k' + 2) == [Ran(progress)] + Repeat(Ran(progress), k' + 1);
      assert ch.log + [Ran(progress)] + Repeat(Ran(progress), k' + 1) == ch.log + Repeat(Ran(progress), k' + 2);
    } else {
      assert Repeat(Ran(progress), 1) == [Ran(progress)];
    }
  }

  // ---------------------------------------------------------------------------
  // The validation loop (provisioner.go:387-399)

  /** A validation answer that ends the loop. */
  predicate Passes(a: Response) {
    !a.failed && a.exitCode == 0
  }

  /** Runs the validation command until an answer passes. The source would loop
      for ever once no answer is left; the model stops with ResponsesExhausted. */
  function Validate(validate: string, ch: Channel): Rebooted
    decreases |ch.responses|
  {
    if ch.responses == [] then Rebooted(ch, Some(ResponsesExhausted))
    else
      var ran := Issued(ch, validate);
      if Passes(ch.responses[0]) then Rebooted(ran, None) else Validate(validate, ran)
  }

  /** The index of the first passing answer, or the number of answers. */
  function FirstPass(rs: seq<Response>): (k: nat)
    ensures k <= |rs|
    ensures forall i :: 0 <= i < k ==> !Passes(rs[i])
    ensures k < |rs| ==> Passes(rs[k])
  {
    if rs == [] || Passes(rs[0]) then 0 else 1 + FirstPass(rs[1..])
  }

  /** Validation runs the validation command once per answer up to the first
      passing one and succeeds there; without a passing answer it runs out. */
  lemma {:induction false} ValidateClosedForm(validate: string, ch: Channel)
    ensures var k := FirstPass(ch.responses);
      var r := Validate(validate, ch);
      && (k < |ch.responses| ==>
            r == Rebooted(Channel(ch.responses[k + 1..], ch.log + Repeat(Ran(validate), k + 1)), None))
      && (k == |ch.responses| ==>
            r == Rebooted(Channel([], ch.log + Repeat(Ran(validate), k)), Some(ResponsesExhausted)))
    decreases |ch.responses|
  {
    var rs := ch.responses;
    if rs == [] {
      assert ch.log + Repeat(Ran(validate), 0) == ch.log;
    } else {
      var ran := Issued(ch, validate);
      if Passes(rs[0]) {
        assert Repeat(Ran(validate), 1) == [Ran(validate)];
      } else {
        ValidateClosedForm(validate, ran);
        assert ran.responses == rs[1..];
        var k' := FirstPass(rs[1..]);
        assert FirstPass(rs) == k' + 1;
        assert Repeat(Ran(validate), k' + 2) == [Ran(validate)] + Repeat(Ran(validate), k' + 1);
        assert ch.log + [Ran(validate)] + Repeat(Ran(validate), k' + 1) == ch.log + Repeat(Ran(validate), k' + 2);
        if k' < |rs| - 1 {
          assert rs[1..][k' + 1..] == rs[k' + 2..];
        }
      }
    }
  }

  /** Some answer of the queue passes validation. */
  predicate SomePass(rs: seq<Response>) {
    exists i :: 0 <= i < |rs| && Passes(rs[i])
  }

  /** Validation succeeds exactly when some answer passes. */
  lemma ValidateSucceedsIff(validate: string, ch: Channel)
    ensures Validate(validate, ch).err.None? <==> SomePass(ch.responses)
  {
    ValidateClosedForm(validate, ch);
    var k := FirstPass(ch.responses);
    if k < |ch.responses| {
      assert Passes(ch.responses[k]);
    }
  }

  // ---------------------------------------------------------------------------
  // The whole reboot

  /** Initiate; a transport error or a non-zero exit code is an error and ends
      the reboot; otherwise poll, then validate. */
  function Reboot(cfg: Config, ch: Channel): (r: Rebooted)
    ensures |r.channel.log| > |ch.log| && r.channel.log[..|ch.log|] == ch.log
    ensures r.channel.log[|ch.log|] == Ran(cfg.rebootInitiateCommand)
    ensures r.err.None? ==>
      && |r.channel.log| >= |ch.log| + 3
      && r.channel.log[|ch.log| + 1] == Ran(cfg.rebootProgressCommand)
      && r.channel.log[|r.channel.log| - 1] == Ran(cfg.rebootValidateCommand)
  {
    var answer := Next(ch.responses);
    var initiated := Issued(ch, cfg.rebootInitiateCommand);
    if answer.failed then Rebooted(initiated, Some(CommandFailed))
    else if answer.exitCode != 0 then Rebooted(initiated, Some(RebootRefused(answer.exitCode)))
    else
      var polled := Poll(cfg.rebootProgressCommand, cfg.rebootCompleteCommand, initiated);
      var validated := Validate(cfg.rebootValidateCommand, polled);
      PollGrows(cfg.rebootProgressCommand, cfg.rebootCompleteCommand, initiated);
      ValidateGrows(cfg.rebootValidateCommand, polled);
      assert validated.channel.log[..|initiated.log|] == polled.log[..|initiated.log|] == initiated.log;
      assert validated.channel.log[..|ch.log|] == initiated.log[..|ch.log|];
      assert validated.channel.log[|ch.log| + 1] == polled.log[|ch.log| + 1] by {
        assert validated.channel.log[..|polled.log|] == polled.log;
      }
      validated
  }

  /** Polling only appends to the log, at least one progress command. */
  lemma {:induction false} PollGrows(progress: string, complete: string, ch: Channel)
    ensures var r := Poll(progress, complete, ch);
      |r.log| > |ch.log| && r.log[..|ch.log|] == ch.log && r.log[|ch.log|] == Ran(progress)
    decreases |ch.responses|
  {
    var polled := Issued(ch, progress);
    if !Next(ch.responses).failed && Next(ch.responses).exitCode != 0 && Next(ch.responses).exitCode != 1 {
      PollGrows(progress, complete, polled);
      assert polled.log[..|ch.log|] == ch.log;
      assert Poll(progress, complete, ch).log[..|polled.log|] == polled.log;
    }
  }

  /** A successful validation only appends to the log, at least one command. */
  lemma {:induction false} ValidateGrows(validate: string, ch: Channel)
    ensures var r := Validate(validate, ch);
      |r.channel.log| >= |ch.log| && r.channel.log[..|ch.log|] == ch.log
      && (r.err.None? ==> |r.channel.log| > |ch.log| && r.channel.log[|r.channel.log| - 1] == Ran(validate))
    decreases |ch.responses|
  {
    if ch.responses != [] && !Passes(ch.responses[0]) {
      var ran := Issued(ch, validate);
      ValidateGrows(validate, ran);
      assert ran.log[..|ch.log|] == ch.log;
    }
  }

  /** A refused or failed initiation is reported as an error, and no progress,
      complete or validation command is issued. */
  lemma RebootInitiationFails(cfg: Config, ch: Channel)
    requires !Passes(Next(ch.responses))
    ensures var r := Reboot(cfg, ch);
      && r.err.Some? && r.err != Some(ResponsesExhausted)
      && r.channel.log == ch.log + [Ran(cfg.rebootInitiateCommand)]
  {
  }

  /** The reboot succeeds exactly when the initiation passes and some answer
      after the polling passes validation. */
  lemma RebootSucceedsIff(cfg: Config, ch: Channel)
    ensures var r := Reboot(cfg, ch);
      var polled := Poll(cfg.rebootProgressCommand, cfg.rebootCompleteCommand, Issued(ch, cfg.rebootInitiateCommand));
      r.err.None? <==> Passes(Next(ch.responses)) && SomePass(polled.responses)
  {
    var answer := Next(ch.responses);
    var polled := Poll(cfg.rebootProgressCommand, cfg.rebootCompleteCommand, Issued(ch, cfg.rebootInitiateCommand));
    if Passes(answer) {
      assert Reboot(cfg, ch) == Validate(cfg.rebootValidateCommand, polled);
      ValidateSucceedsIff(cfg.rebootValidateCommand, polled);
    } else {
      assert Reboot(cfg, ch).err.Some?;
    }
  }

  /** One scripted reboot: the initiation passes, the first progress poll
      reports some other code, the second reports 0 so the complete command
      runs, the first validation fails in transport and the second passes. */
  lemma RebootScenario(cfg: Config, complete: Response)
    ensures var responses := [Response(false, 0), Response(false, 2), Response(false, 0), complete,
                              Response(true, -1), Response(false, 0), Response(false, 7)];
      Reboot(cfg, Channel(responses, []))
      == Rebooted(Channel([Response(false, 7)],
                          [Ran(cfg.rebootInitiateCommand), Ran(cfg.rebootProgressCommand), Ran(cfg.rebootProgressCommand),
                           Ran(cfg.rebootCompleteCommand), Ran(cfg.rebootValidateCommand), Ran(cfg.rebootValidateCommand)]),
                  None)
  {
    var responses := [Response(false, 0), Response(false, 2), Response(false, 0), complete,
                      Response(true, -1), Response(false, 0), Response(false, 7)];
    var initiated := Issued(Channel(responses, []), cfg.rebootInitiateCommand);
    assert initiated.responses == responses[1..];
    PollClosedForm(cfg.rebootProgressCommand, cfg.rebootCompleteCommand, initiated);
    assert PollStop(responses[1..]) == 1 by {
      assert responses[1..][1..] == responses[2..];
    }
    var polled := Poll(cfg.rebootProgressCommand, cfg.rebootCompleteCommand, initiated);
    assert polled.responses == responses[4..];
    ValidateClosedForm(cfg.rebootValidateCommand, polled);
    assert FirstPass(responses[4..]) == 1 by {
      assert responses[4..][1..] == responses[5..];
    }
    assert responses[4..][2..] == [Response(false, 7)];
  }
}
