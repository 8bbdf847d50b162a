/** The body of `reader_thread` for one non-empty chunk read from the serial
    port (mailer.py:164-236): frame the accumulated bytes, classify each line,
    append readings to the channels, check them, pass the alerts through the
    cooldown gate and print the `[DATA]` line. An exception raised while a line
    is handled ends the chunk's loop; the catch-all handler absorbs it and the
    lines still in `buf` wait for the next non-empty chunk. */
module Ingest {
  import opened Wrappers
  import opened Text
  import opened Telemetry
  import opened Alerts
  import opened Framing
  import opened Window
  import opened Cooldown

  /** What the loop made of one line. */
  datatype Outcome =
    | Skipped                      // blank after trimming
    | Raw(text: string)            // printed as `[SERIAL RAW]`
    | Reading(entry: Entry, alerts: seq<Alert>, mail: Option<Mail>, printed: bool)
    | Faulted(entry: Entry)        // appended, then `check_alerts` raised

  /** The clock readings around one line (`tsec`, the `time.time() - start_time`
      stored with the reading; `time.time()` at the cooldown test and after
      `send_mail`) and whether the transport accepted a mail sent for it. */
  datatype Env = Env(tsec: real, checkAt: real, sentAt: real, accepted: bool)

  /** The line raised, so the rest of the chunk's loop is abandoned: either
      `check_alerts` or the `[DATA]` formatting failed. */
  predicate Aborts(o: Outcome)
  {
    o.Faulted? || (o.Reading? && !o.printed)
  }

  /** The entry the line appended to the channels, if any. */
  function Recorded(o: Outcome): seq<Entry>
  {
    if o.Reading? || o.Faulted? then [o.entry] else []
  }

  /** The mail the transport accepted for the line, if any. */
  function Accepted(o: Outcome, env: Env): seq<Mail>
  {
    if o.Reading? && o.mail.Some? && env.accepted then [o.mail.value] else []
  }

  /** The reader's fixed settings: `COOLDOWN_S`, whether the mail
      credentials are configured, `bytes.decode(errors="ignore")` and
      `json.loads` (failing with `None`). */
  datatype Config = Config(cooldown: int, configured: bool, decode: Line -> string, json: Decoder)

  /** How a reading is handled, given the gate's `last_email` when it
      arrives: its entry goes to the channels, then `check_alerts` either
      raises or yields the alerts, which reach the gate, and the `[DATA]`
      line is printed unless formatting it raises. */
  function ReadingStep(p: Payload, env: Env, last: real, cooldown: int, configured: bool): Outcome
  {
    var e := Entry(env.tsec, ToSample(p));
    match CheckAlerts(p)
    case Failure(_) => Faulted(e)
    case Success(alerts) =>
      Reading(e, alerts,
              if GateOpen(alerts, env.checkAt, last, cooldown, configured)
              then Some(Mail(Subject(SeverityOf(alerts)), alerts, p))
              else None,
              !DataLineFails(p))
  }

  /** How one complete line is handled, given the gate's `last_email` when
      it arrives. */
  function Step(line: Line, env: Env, last: real, cfg: Config): Outcome
  {
    match Classify(cfg.decode(line), cfg.json)
    case Blank => Skipped
    case Diagnostic(t) => Raw(t)
    case Telemetry(p) => ReadingStep(p, env, last, cfg.cooldown, cfg.configured)
  }

  /** `last_email` after one outcome. */
  function NextLast(o: Outcome, env: Env, last: real): real
  {
    if o.Reading? && o.mail.Some? then env.sentAt else last
  }

  /** What the loop does with one line: the line, its clock readings and
      the `last_email` it meets give its outcome. */
  type Handler = (Line, Env, real) -> Outcome

  /** The handler of the reader loop under the settings `cfg`. */
  function Handling(cfg: Config): Handler
  {
    (line, env, last) => Step(line, env, last, cfg)
  }

  /** The outcomes of the `while b"\n" in buf` loop over the lines from `k`
      on: each line is handled with the `last_email` the earlier ones left,
      and the loop ends after the first line that aborts. */
  function Run(lines: seq<Line>, envs: seq<Env>, k: nat, last: real, handle: Handler): (r: seq<Outcome>)
    requires |lines| <= |envs|
    ensures k <= |lines| ==> |r| <= |lines| - k
    decreases |lines| - k
  {
    if k >= |lines| then []
    else
      var o := handle(lines[k], envs[k], last);
      [o] + (if Aborts(o) then [] else Run(lines, envs, k + 1, NextLast(o, envs[k], last), handle))
  }

  /** The loop handles at most the lines it is given, only its last
      outcome may abort, and it stops short of the last line only because
      one did. */
  lemma {:induction false} RunShape(lines: seq<Line>, envs: seq<Env>, k: nat, last: real, handle: Handler)
    requires |lines| <= |envs|
    ensures var os := Run(lines, envs, k, last, handle);
      && (k <= |lines| ==> |os| <= |lines| - k)
      && (forall i :: 0 <= i < |os| - 1 ==> !Aborts(os[i]))
      && (k < |lines| ==> os != [])
      && (k <= |lines| && |os| < |lines| - k ==> Aborts(os[|os| - 1]))
    decreases |lines| - k
  {
    if k < |lines| {
      var o := handle(lines[k], envs[k], last);
      if !Aborts(o) {
        var next := NextLast(o, envs[k], last);
        RunShape(lines, envs, k + 1, next, handle);
        var rest := Run(lines, envs, k + 1, next, handle);
        assert Run(lines, envs, k, last, handle) == [o] + rest;
        assert forall i :: 1 <= i < |rest| + 1 ==> ([o] + rest)[i] == rest[i - 1];
      }
    }
  }

  /** Handling line `k` moves it from the loop's future into its past. */
  lemma RunStep(lines: seq<Line>, envs: seq<Env>, k: nat, last: real, handle: Handler,
                os: seq<Outcome>, o: Outcome, next: real)
    requires k < |lines| <= |envs|
    requires o == handle(lines[k], envs[k], last) && next == NextLast(o, envs[k], last)
    ensures Aborts(o) ==> os + Run(lines, envs, k, last, handle) == os + [o]
    ensures !Aborts(o) ==> os + Run(lines, envs, k, last, handle) == (os + [o]) + Run(lines, envs, k + 1, next, handle)
  {
    var rest := if Aborts(o) then [] else Run(lines, envs, k + 1, next, handle);
    assert Run(lines, envs, k, last, handle) == [o] + rest;
    AppendAssoc(os, [o], rest);
  }

  /** `last_email` after the outcomes `os`, starting from `last`. */
  function LastAfter(last: real, os: seq<Outcome>, envs: seq<Env>): real
    requires |os| <= |envs|
  {
    if os == [] then last
    else
      var i := |os| - 1;
      NextLast(os[i], envs[i], LastAfter(last, os[..i], envs))
  }

  /** The entries the outcomes appended, in order. */
  function Entries(os: seq<Outcome>): seq<Entry>
  {
    if os == [] then [] else Entries(os[..|os| - 1]) + Recorded(os[|os| - 1])
  }

  /** The mails the transport accepted for the outcomes, in order. */
  function Delivered(os: seq<Outcome>, envs: seq<Env>): seq<Mail>
    requires |os| <= |envs|
  {
    if os == [] then [] else Delivered(os[..|os| - 1], envs) + Accepted(os[|os| - 1], envs[|os| - 1])
  }

  /** The running summaries after one more outcome, on top of the state
      `h` and `d` they started from. */
  lemma SummariesExtend(last: real, h: seq<Entry>, d: seq<Mail>, os: seq<Outcome>, o: Outcome, envs: seq<Env>)
    requires |os| < |envs|
    ensures LastAfter(last, os + [o], envs) == NextLast(o, envs[|os|], LastAfter(last, os, envs))
    ensures h + Entries(os + [o]) == h + Entries(os) + Recorded(o)
    ensures d + Delivered(os + [o], envs) == d + Delivered(os, envs) + Accepted(o, envs[|os|])
  {
    assert (os + [o])[..|os|] == os;
  }

  /** Taking the next line off a buffer that frames to the lines from `k` on
      leaves one that frames to the lines from `k + 1` on. */
  lemma PopStep(f: Framed, k: nat, before: seq<byte>, raw: Line, after: seq<byte>)
    requires k <= |f.lines| && Frame(before) == Framed(f.lines[k..], f.rest)
    requires Frame(before) == Framed([raw] + Frame(after).lines, Frame(after).rest)
    ensures k < |f.lines| && raw == f.lines[k]
    ensures Frame(after) == Framed(f.lines[k + 1..], f.rest)
  {
    assert f.lines[k..] == [raw] + Frame(after).lines;
    assert f.lines[k + 1..] == f.lines[k..][1..];
  }

  /** `last_email` after the loop over the lines from `k` on. */
  function RunLast(lines: seq<Line>, envs: seq<Env>, k: nat, last: real, handle: Handler): real
    requires |lines| <= |envs|
    decreases |lines| - k
  {
    if k >= |lines| then last
    else
      var o := handle(lines[k], envs[k], last);
      var next := NextLast(o, envs[k], last);
      if Aborts(o) then next else RunLast(lines, envs, k + 1, next, handle)
  }

  /** `RunLast` is the `last_email` the outcomes of the loop leave, on top
      of the outcomes `done` handled before line `k`. */
  lemma {:induction false} RunLastAfter(done: seq<Outcome>, lines: seq<Line>, envs: seq<Env>, k: nat,
                                        start: real, last: real, handle: Handler)
    requires |done| == k <= |lines| <= |envs|
    requires LastAfter(start, done, envs) == last
    ensures LastAfter(start, done + Run(lines, envs, k, last, handle), envs) == RunLast(lines, envs, k, last, handle)
    decreases |lines| - k
  {
    if k == |lines| {
      assert done + [] == done;
    } else {
      var o := handle(lines[k], envs[k], last);
      var next := NextLast(o, envs[k], last);
      SummariesExtend(start, [], [], done, o, envs);
      var rest := if Aborts(o) then [] else Run(lines, envs, k + 1, next, handle);
      assert Run(lines, envs, k, last, handle) == [o] + rest;
      AppendAssoc(done, [o], rest);
      if Aborts(o) {
        assert (done + [o]) + rest == done + [o];
      } else {
        RunLastAfter(done + [o], lines, envs, k + 1, start, next, handle);
      }
    }
  }

  /** The loop over lines `a ++ b` from `|a| + i` on is the loop over `b`
      from `i` on, with the clock readings that belong to `b`. */
  lemma {:induction false} RunShift(a: seq<Line>, b: seq<Line>, envs: seq<Env>, i: nat, last: real, handle: Handler)
    requires |a| + |b| <= |envs| && i <= |b|
    ensures Run(a + b, envs, |a| + i, last, handle) == Run(b, envs[|a|..], i, last, handle)
    decreases |b| - i
  {
    if i < |b| {
      var ab, eb := a + b, envs[|a|..];
      assert ab[|a| + i] == b[i] && eb[i] == envs[|a| + i];
      var o := handle(b[i], envs[|a| + i], last);
      var next := NextLast(o, envs[|a| + i], last);
      RunShift(a, b, envs, i + 1, next, handle);
      var r1 := if Aborts(o) then [] else Run(ab, envs, |a| + i + 1, next, handle);
      var r2 := if Aborts(o) then [] else Run(b, eb, i + 1, next, handle);
      assert r1 == r2;
      assert Run(ab, envs, |a| + i, last, handle) == [o] + r1;
      assert Run(b, eb, i, last, handle) == [o] + r2;
    }
  }

  /** While no line of `a` aborts, the loop over `a ++ b` handles all of
      `a`, then goes on into `b` with the `last_email` that `a` left. */
  lemma {:induction false} RunPrefix(a: seq<Line>, b: seq<Line>, envs: seq<Env>, k: nat, last: real, handle: Handler)
    requires k <= |a| && |a| + |b| <= |envs|
    requires forall o :: o in Run(a, envs, k, last, handle) ==> !Aborts(o)
    ensures Run(a + b, envs, k, last, handle)
            == Run(a, envs, k, last, handle) + Run(a + b, envs, |a|, RunLast(a, envs, k, last, handle), handle)
    decreases |a| - k
  {
    if k == |a| {
      assert [] + Run(a + b, envs, |a|, last, handle) == Run(a + b, envs, |a|, last, handle);
    } else {
      assert (a + b)[k] == a[k];
      var o := handle(a[k], envs[k], last);
      var next := NextLast(o, envs[k], last);
      var ra := Run(a, envs, k + 1, next, handle);
      assert Run(a, envs, k, last, handle) == [o] + ra;
      assert o in Run(a, envs, k, last, handle);
      assert forall x :: x in ra ==> x in Run(a, envs, k, last, handle);
      RunPrefix(a, b, envs, k + 1, next, handle);
      AppendAssoc([o], ra, Run(a + b, envs, |a|, RunLast(a, envs, k + 1, next, handle), handle));
    }
  }

  /** When no line of the first chunk's lines `a` aborts, chunk boundaries do
      not matter to the loop: handling `a ++ b` in one pass is handling `a`,
      then `b` with the `last_email` the first pass left. */
  lemma RunAppend(a: seq<Line>, b: seq<Line>, envs: seq<Env>, last: real, handle: Handler)
    requires |a| + |b| <= |envs|
    requires forall o :: o in Run(a, envs, 0, last, handle) ==> !Aborts(o)
    ensures Run(a + b, envs, 0, last, handle)
            == Run(a, envs, 0, last, handle) + Run(b, envs[|a|..], 0, RunLast(a, envs, 0, last, handle), handle)
  {
    RunPrefix(a, b, envs, 0, last, handle);
    RunShift(a, b, envs, 0, RunLast(a, envs, 0, last, handle), handle);
  }

  /** A line that aborts ends the pass: the lines after it stay unhandled. */
  lemma AbortEndsPass(lines: seq<Line>, envs: seq<Env>, k: nat, last: real, handle: Handler)
    requires k < |lines| <= |envs|
    requires Aborts(handle(lines[k], envs[k], last))
    ensures Run(lines, envs, k, last, handle) == [handle(lines[k], envs[k], last)]
  {
  }

  /** So with an aborting line, chunk boundaries do matter: when it arrives
      in one chunk with the next line, the pass handles one line and leaves
      the other in `buf`; with a chunk boundary between the two, the two
      passes handle both. */
  lemma AbortDefersRest(lines: seq<Line>, envs: seq<Env>, last: real, handle: Handler)
    requires |lines| == 2 <= |envs|
    requires Aborts(handle(lines[0], envs[0], last))
    ensures |Run(lines, envs, 0, last, handle)| == 1
    ensures var next := RunLast(lines[..1], envs, 0, last, handle);
      |Run(lines[..1], envs, 0, last, handle) + Run(lines[1..], envs[1..], 0, next, handle)| == 2
  {
    AbortEndsPass(lines, envs, 0, last, handle);
    var next := RunLast(lines[..1], envs, 0, last, handle);
    assert lines[..1][0] == lines[0];
    assert |Run(lines[..1], envs, 0, last, handle)| == 1;
    assert lines[1..][0] == lines[1];
    assert |Run(lines[1..], envs[1..], 0, next, handle)| == 1;
  }

  /** A line that is blank or fails the sentinel gate neither reaches the
      channels, nor the alert engine, nor the gate, and never aborts. */
  lemma GateRejectedInert(line: Line, env: Env, last: real, cfg: Config)
    requires var s := Strip(cfg.decode(line)); s == [] || s[0] != '{'
    ensures var o := Step(line, env, last, cfg);
      && Recorded(o) == [] && Accepted(o, env) == [] && !Aborts(o) && NextLast(o, env, last) == last
      && (o == Skipped || o == Raw(Strip(cfg.decode(line))))
  {
    var d := cfg.decode(line);
    var o := Step(line, env, last, cfg);
    if Strip(d) == [] {
      assert Classify(d, cfg.json) == Blank;
      assert o == Skipped;
    } else {
      assert Classify(d, cfg.json) == Diagnostic(Strip(d));
      assert o == Raw(Strip(d));
    }
  }

  /** A line mails only when it is a reading whose check raised alerts
      while the gate was open, and then with the subject its alerts select;
      only a reading moves `last_email`. */
  lemma MailOnlyWithAlerts(line: Line, env: Env, last: real, cfg: Config)
    ensures var o := Step(line, env, last, cfg);
      && (o.Reading? && o.mail.Some? ==>
            && o.alerts != [] && env.checkAt - last >= cfg.cooldown as real && cfg.configured
            && o.mail.value.subject == Subject(SeverityOf(o.alerts))
            && o.mail.value.alerts == o.alerts)
      && (NextLast(o, env, last) != last ==> o.Reading? && o.mail.Some?)
      && (Accepted(o, env) != [] ==> o.Reading? && o.mail.Some? && env.accepted)
  {
    var o := Step(line, env, last, cfg);
    match Classify(cfg.decode(line), cfg.json)
    case Blank => assert o == Skipped;
    case Diagnostic(t) => assert o == Raw(t);
    case Telemetry(p) =>
      assert o == ReadingStep(p, env, last, cfg.cooldown, cfg.configured);
      match CheckAlerts(p)
      case Failure(_) => assert o.Faulted?;
      case Success(alerts) => assert o.Reading? && o.alerts == alerts;
  }

  /** A reading aborts the loop exactly when its `[DATA]` line cannot be
      formatted; in particular every reading that lacks gas, sound or water
      does, after its entry, alerts and mail. */
  lemma ReadingAborts(p: Payload, env: Env, last: real, cooldown: int, configured: bool)
    ensures Aborts(ReadingStep(p, env, last, cooldown, configured)) <==> DataLineFails(p)
    ensures "gas" !in p || "sound" !in p || "water" !in p ==> Aborts(ReadingStep(p, env, last, cooldown, configured))
  {
    match CheckAlerts(p)
    case Failure(_) => assert DataLineFails(p);
    case Success(_) =>
  }

  /** The reader's state: the accumulator, the eight channels, and the gate
      with its `last_email` and `alert_history`. */
  class Ingestion {
    const framer: LineFramer
    const window: WindowedBuffer
    const gate: CooldownGate
    /** `json.loads`, failing with `None` */
    const json: Decoder
    /** `bytes.decode(errors="ignore")` */
    const decode: Line -> string

    ghost predicate Valid()
      reads this, window, gate
    {
      window.Valid() && gate.Valid()
    }

    /** The settings the lines are handled with. */
    function Cfg(): Config
    {
      Config(gate.cooldown, gate.configured, decode, json)
    }

    constructor (windowSec: nat, cooldownS: int, fromEmail: Option<string>, appPass: Option<string>,
                 loads: Decoder, decoder: Line -> string)
      ensures Valid() && fresh(framer) && fresh(window) && fresh(gate)
      ensures framer.buf == [] && window.N == windowSec && window.history == []
      ensures Cfg() == Config(cooldownS, Configured(fromEmail, appPass), decoder, loads)
      ensures gate.lastEmail == 0.0 && gate.delivered == []
    {
      framer := new LineFramer();
      window := new WindowedBuffer(windowSec);
      gate := new CooldownGate(cooldownS, fromEmail, appPass);
      json, decode := loads, decoder;
    }

    /** A reading: appended to the channels, checked, and passed through the
        cooldown gate. */
    method Accept(p: Payload, env: Env) returns (o: Outcome)
      requires Valid()
      modifies window, gate
      ensures Valid()
      ensures o == ReadingStep(p, env, old(gate.lastEmail), gate.cooldown, gate.configured)
      ensures window.history == old(window.history) + Recorded(o)
      ensures gate.lastEmail == NextLast(o, env, old(gate.lastEmail))
      ensures gate.delivered == old(gate.delivered) + Accepted(o, env)
    {
      var e := Entry(env.tsec, ToSample(p));
      window.Append(e.time, e.sample);
      ghost var h := window.history;
      var checked := CheckAlerts(p);
      if checked.Failure? {
        o := Faulted(e);
        assert gate.delivered + [] == gate.delivered;
      } else {
        var mail := gate.Dispatch(p, checked.value, env.checkAt, env.sentAt, env.accepted);
        assert window.history == h;
        o := Reading(e, checked.value, mail, !DataLineFails(p));
      }
    }

    /** The handling of one complete line. */
    method ProcessLine(raw: Line, env: Env) returns (o: Outcome)
      requires Valid()
      modifies window, gate
      ensures Valid()
      ensures o == Step(raw, env, old(gate.lastEmail), Cfg())
      ensures window.history == old(window.history) + Recorded(o)
      ensures gate.lastEmail == NextLast(o, env, old(gate.lastEmail))
      ensures gate.delivered == old(gate.delivered) + Accepted(o, env)
    {
      var k := Classify(decode(raw), json);
      match k
      case Blank =>
        o := Skipped;
        assert gate.delivered + [] == gate.delivered;
      case Diagnostic(t) =>
        o := Raw(t);
        assert gate.delivered + [] == gate.delivered;
      case Telemetry(p) => o := Accept(p, env);
    }

    /** Takes the next complete line off `buf` and handles it. `f` is what
        `buf` framed to when the pass began, `expected` the outcomes due for
        the pass, and `last`, `h` and `d` the gate's `last_email`, the channel
        history and the delivered mails then; `outcomes` are the lines
        handled so far. */
    method HandleNext(ghost f: Framed, ghost expected: seq<Outcome>, ghost last: real, ghost h: seq<Entry>,
                      ghost d: seq<Mail>, outcomes: seq<Outcome>, envs: seq<Env>)
      returns (o: Outcome, next: seq<Outcome>)
      requires Valid() && framer.HasLine()
      requires |outcomes| <= |f.lines| <= |envs| && Frame(framer.buf) == Framed(f.lines[|outcomes|..], f.rest)
      requires expected == outcomes + Run(f.lines, envs, |outcomes|, gate.lastEmail, Handling(Cfg()))
      requires window.history == h + Entries(outcomes)
      requires gate.lastEmail == LastAfter(last, outcomes, envs)
      requires gate.delivered == d + Delivered(outcomes, envs)
      modifies framer, window, gate
      ensures Valid()
      ensures next == outcomes + [o]
      ensures |next| <= |f.lines| && Frame(framer.buf) == Framed(f.lines[|next|..], f.rest)
      ensures |framer.buf| < |old(framer.buf)|
      ensures Aborts(o) ==> expected == next
      ensures !Aborts(o) ==> expected == next + Run(f.lines, envs, |next|, gate.lastEmail, Handling(Cfg()))
      ensures window.history == h + Entries(next)
      ensures gate.lastEmail == LastAfter(last, next, envs)
      ensures gate.delivered == d + Delivered(next, envs)
    {
      ghost var before := framer.buf;
      ghost var lastBefore := gate.lastEmail;
      var raw := framer.PopLine();
      PopStep(f, |outcomes|, before, raw, framer.buf);
      o := ProcessLine(raw, envs[|outcomes|]);
      RunStep(f.lines, envs, |outcomes|, lastBefore, Handling(Cfg()), outcomes, o, gate.lastEmail);
      SummariesExtend(last, h, d, outcomes, o, envs);
      next := outcomes + [o];
    }

    /** The `while b"\n" in buf` loop: complete lines are taken off `buf`
        and handled in order until one aborts or none is left; `envs[i]` are
        the clock readings and transport result for the `i`-th line handled. */
    method Drain(envs: seq<Env>) returns (outcomes: seq<Outcome>)
      requires Valid()
      requires |envs| >= |Frame(framer.buf).lines|
      modifies framer, window, gate
      ensures Valid()
      ensures |outcomes| <= |Frame(old(framer.buf)).lines|
      ensures outcomes == Run(Frame(old(framer.buf)).lines, envs, 0, old(gate.lastEmail), Handling(Cfg()))
      ensures framer.buf == Unframe(Frame(old(framer.buf)).lines[|outcomes|..], Frame(old(framer.buf)).rest)
      ensures window.history == old(window.history) + Entries(outcomes)
      ensures gate.lastEmail == LastAfter(old(gate.lastEmail), outcomes, envs)
      ensures gate.delivered == old(gate.delivered) + Delivered(outcomes, envs)
    {
      outcomes := [];
      ghost var f := Frame(framer.buf);
      ghost var last, h, d := gate.lastEmail, window.history, gate.delivered;
      ghost var expected := Run(f.lines, envs, 0, last, Handling(Cfg()));
      assert f.lines[0..] == f.lines;
      assert expected == outcomes + expected;
      var stop := false;
      while framer.HasLine() && !stop
        invariant Valid()
        invariant |outcomes| <= |f.lines|
        invariant Frame(framer.buf) == Framed(f.lines[|outcomes|..], f.rest)
        invariant stop ==> expected == outcomes
        invariant !stop ==> expected == outcomes + Run(f.lines, envs, |outcomes|, gate.lastEmail, Handling(Cfg()))
        invariant window.history == h + Entries(outcomes)
        invariant gate.lastEmail == LastAfter(last, outcomes, envs)
        invariant gate.delivered == d + Delivered(outcomes, envs)
        decreases |framer.buf|
      {
        var o;
        o, outcomes := HandleNext(f, expected, last, h, d, outcomes, envs);
        stop := Aborts(o);
      }
      if !stop {
        assert expected == outcomes + [];
      }
      UnframeFrame(framer.buf);
    }

    /** One pass of the reader loop with a chunk from the port. An empty
        chunk changes nothing; otherwise it is appended to `buf`, and the lines
        of the accumulated bytes are handled in order until one aborts; the
        lines not reached and the trailing fragment stay in `buf`. */
    method OnChunk(chunk: seq<byte>, envs: seq<Env>) returns (outcomes: seq<Outcome>)
      requires Valid()
      requires |envs| >= |Frame(framer.buf + chunk).lines|
      modifies framer, window, gate
      ensures Valid()
      ensures chunk == [] ==> outcomes == [] && framer.buf == old(framer.buf)
      ensures chunk != [] ==> |outcomes| <= |Frame(old(framer.buf) + chunk).lines|
      ensures chunk != [] ==> outcomes == Run(Frame(old(framer.buf) + chunk).lines, envs, 0, old(gate.lastEmail), Handling(Cfg()))
      ensures chunk != [] ==> framer.buf == Unframe(Frame(old(framer.buf) + chunk).lines[|outcomes|..],
                                                    Frame(old(framer.buf) + chunk).rest)
      ensures window.history == old(window.history) + Entries(outcomes)
      ensures gate.lastEmail == LastAfter(old(gate.lastEmail), outcomes, envs)
      ensures gate.delivered == old(gate.delivered) + Delivered(outcomes, envs)
    {
      if chunk == [] {
        return [];
      }
      framer.Append(chunk);
      outcomes := Drain(envs);
    }
  }
}
