/** The cooldown gate around alert mail (mailer.py:50, 166, 205-214) and what
    `send_mail` does with a batch (mailer.py:88-140). */
module Cooldown {
  import opened Wrappers
  import opened Telemetry
  import opened Alerts

  /** `FROM_EMAIL and APP_PASS`: both set and non-empty. */
  predicate Configured(fromEmail: Option<string>, appPass: Option<string>)
  {
    fromEmail.Some? && fromEmail.value != "" && appPass.Some? && appPass.value != ""
  }

  /** The dispatch condition: alerts present, the cooldown elapsed since the
      last mail, and credentials configured. */
  predicate GateOpen(alerts: seq<Alert>, now: real, last: real, cooldown: int, configured: bool)
  {
    alerts != [] && now - last >= cooldown as real && configured
  }

  /** A mail as `send_mail` builds it; the body text is not modelled. */
  datatype Mail = Mail(subject: string, alerts: seq<Alert>, payload: Payload)

  /** One pass of the dispatch code: the alerts of a reading, the clock at
      the cooldown test and the clock after `send_mail` returned, which is
      what `last_email` is set to. */
  datatype Attempt = Attempt(alerts: seq<Alert>, checkAt: real, sentAt: real)

  /** The gate's own condition between consecutive dispatches: each one was
      tested at least `cooldown` after the `last_email` the previous one set,
      and the first at least `cooldown` after `start`. */
  ghost predicate Spaced(ds: seq<Attempt>, start: real, cooldown: int)
  {
    && (ds != [] ==> ds[0].checkAt - start >= cooldown as real)
    && (forall i :: 0 <= i < |ds| - 1 ==> ds[i + 1].checkAt - ds[i].sentAt >= cooldown as real)
  }

  /** A dispatch tested at least `cooldown` after the latest one keeps the spacing. */
  lemma SpacedExtend(ds: seq<Attempt>, start: real, last: real, a: Attempt, cooldown: int)
    requires Spaced(ds, start, cooldown)
    requires ds == [] ==> last == start
    requires ds != [] ==> last == ds[|ds| - 1].sentAt
    requires a.checkAt - last >= cooldown as real
    ensures Spaced(ds + [a], start, cooldown)
  {
    var t := ds + [a];
    forall i | 0 <= i < |t| - 1 ensures t[i + 1].checkAt - t[i].sentAt >= cooldown as real {
      if i + 1 < |ds| { assert t[i + 1] == ds[i + 1] && t[i] == ds[i]; }
    }
  }

  /** With a clock that does not run backwards during a dispatch, the times
      `last_email` takes are themselves at least `cooldown` apart. */
  lemma SentAtSpacing(ds: seq<Attempt>, start: real, cooldown: int)
    requires Spaced(ds, start, cooldown)
    requires forall i :: 0 <= i < |ds| ==> ds[i].checkAt <= ds[i].sentAt
    ensures ds != [] ==> ds[0].sentAt - start >= cooldown as real
    ensures forall i :: 0 <= i < |ds| - 1 ==> ds[i + 1].sentAt - ds[i].sentAt >= cooldown as real
  {
    forall i | 0 <= i < |ds| - 1 ensures ds[i + 1].sentAt - ds[i].sentAt >= cooldown as real {
      assert ds[i + 1].checkAt <= ds[i + 1].sentAt;
    }
  }

  class CooldownGate {
    /** `COOLDOWN_S` */
    const cooldown: int
    /** whether FROM_EMAIL and APP_PASS are both set */
    const configured: bool
    /** `last_email` */
    var lastEmail: real
    /** `alert_history`: the mails the transport accepted */
    var delivered: seq<Mail>
    /** the dispatches so far, oldest first */
    ghost var dispatches: seq<Attempt>

    /** The gate's invariant: `last_email` is the time of the latest dispatch
        (0.0 before the first) and dispatches respect the cooldown. */
    ghost predicate Valid()
      reads this
    {
      && (dispatches == [] ==> lastEmail == 0.0)
      && (dispatches != [] ==> lastEmail == dispatches[|dispatches| - 1].sentAt)
      && Spaced(dispatches, 0.0, cooldown)
    }

    /** `FROM_EMAIL` and `APP_PASS` are read once, at start-up. */
    constructor (cooldownS: int, fromEmail: Option<string>, appPass: Option<string>)
      ensures Valid() && cooldown == cooldownS && configured == Configured(fromEmail, appPass)
      ensures lastEmail == 0.0 && delivered == [] && dispatches == []
    {
      cooldown, configured := cooldownS, Configured(fromEmail, appPass);
      lastEmail, delivered, dispatches := 0.0, [], [];
    }

    /** One pass of the dispatch code for a reading that raised `alerts`:
        `checkAt` is the clock at the condition, `sentAt` the clock after
        `send_mail` returned, and `accepted` whether the transport succeeded.
        `send_mail` swallows its own errors, so `last_email` advances on every
        dispatch, accepted or not. */
    method Dispatch(payload: Payload, alerts: seq<Alert>, checkAt: real, sentAt: real, accepted: bool)
      returns (mail: Option<Mail>)
      requires Valid()
      modifies this
      ensures Valid()
      ensures mail.Some? <==> GateOpen(alerts, checkAt, old(lastEmail), cooldown, configured)
      ensures mail.Some? ==> mail.value == Mail(Subject(SeverityOf(alerts)), alerts, payload)
      ensures lastEmail == if mail.Some? then sentAt else old(lastEmail)
      ensures dispatches == if mail.Some? then old(dispatches) + [Attempt(alerts, checkAt, sentAt)] else old(dispatches)
      ensures delivered == if mail.Some? && accepted then old(delivered) + [mail.value] else old(delivered)
    {
      if alerts != [] && checkAt - lastEmail >= cooldown as real && configured {
        SpacedExtend(dispatches, 0.0, lastEmail, Attempt(alerts, checkAt, sentAt), cooldown);
        lastEmail := sentAt;
        dispatches := dispatches + [Attempt(alerts, checkAt, sentAt)];
        mail := Some(Mail(Subject(SeverityOf(alerts)), alerts, payload));
        if accepted {
          delivered := delivered + [mail.value];
        }
      } else {
        mail := None;
      }
    }
  }

  /** The attempts of a run that dispatch, starting from `last_email == last`. */
  function Dispatches(last: real, cooldown: int, configured: bool, run: seq<Attempt>): seq<Attempt>
    decreases |run|
  {
    if run == [] then []
    else if GateOpen(run[0].alerts, run[0].checkAt, last, cooldown, configured) then
      [run[0]] + Dispatches(run[0].sentAt, cooldown, configured, run[1..])
    else Dispatches(last, cooldown, configured, run[1..])
  }

  /** However the readings and the clock come, each dispatch is tested at
      least the cooldown after the previous dispatch set `last_email` (the
      first after the starting `last_email`), every dispatch carries alerts,
      and a run without alerts dispatches nothing. */
  lemma {:induction false} DispatchSpacing(last: real, cooldown: int, configured: bool, run: seq<Attempt>)
    ensures Spaced(Dispatches(last, cooldown, configured, run), last, cooldown)
    ensures forall a :: a in Dispatches(last, cooldown, configured, run) ==> a in run && a.alerts != []
    ensures (forall i :: 0 <= i < |run| ==> run[i].alerts == []) ==> Dispatches(last, cooldown, configured, run) == []
    decreases |run|
  {
    if run != [] {
      var a := run[0];
      assert forall b :: b in run[1..] ==> b in run;
      if GateOpen(a.alerts, a.checkAt, last, cooldown, configured) {
        DispatchSpacing(a.sentAt, cooldown, configured, run[1..]);
        var rest := Dispatches(a.sentAt, cooldown, configured, run[1..]);
        var d := [a] + rest;
        forall i | 0 <= i < |d| - 1 ensures d[i + 1].checkAt - d[i].sentAt >= cooldown as real {
          if i > 0 { assert d[i] == rest[i - 1] && d[i + 1] == rest[i]; }
        }
      } else {
        DispatchSpacing(last, cooldown, configured, run[1..]);
      }
    }
  }

  /** The first reading with alerts dispatches (the clock is far past the
      initial `last_email` of 0); one within the cooldown of that dispatch does
      not; one after it does again. */
  lemma CooldownCycle(alerts: seq<Alert>, cooldown: int, first: real, sentAt: real, later: real)
    requires alerts != [] && first >= cooldown as real
    ensures GateOpen(alerts, first, 0.0, cooldown, true)
    ensures later < sentAt + cooldown as real ==> !GateOpen(alerts, later, sentAt, cooldown, true)
    ensures later >= sentAt + cooldown as real ==> GateOpen(alerts, later, sentAt, cooldown, true)
    ensures !GateOpen([], later, sentAt, cooldown, true) && !GateOpen(alerts, later, sentAt, cooldown, false)
  {
  }
}
