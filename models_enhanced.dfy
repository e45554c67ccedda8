/** The enhanced alert record. It shares the profile, settings and session
    logic of `Models` and differs in its alert defaults: the alert type has
    no default, so a new alert holds the empty type, and the description is
    never NULL. Acknowledging and resolving accept a user, which they would
    record only if the record had `acknowledged_by` and `resolved_by` fields;
    it has neither. */
module ModelsEnhanced {
  import opened Wrappers
  import opened Models

  /** A new enhanced alert, created at `now`, with every field at its default. */
  function NewEnhancedAlert(now: Time): AlertRecord
  {
    AlertRecord(now, "", Some(""), "medium", "active", 1.0, None, None, "")
  }

  /** The defaults pass the severity, status and confidence validators, but
      the empty alert type is not one of the choices: a new enhanced alert is
      valid exactly once it is given one of the four alert types. */
  lemma EnhancedAlertDefaults(now: Time, alertType: string)
    ensures var a := NewEnhancedAlert(now);
            && a.severity == "medium" && a.status == "active" && a.confidence == 1.0
            && 0.0 <= a.confidence <= 1.0
            && !AlertValid(a)
    ensures AlertValid(NewEnhancedAlert(now).(alertType := alertType)) <==> alertType in AlertTypes
  {
  }

  class Alert {
    var timestamp: Time
    var alertType: string
    var description: string
    var severity: string
    var status: string
    var confidence: real
    var acknowledgedAt: Option<Time>
    var resolvedAt: Option<Time>
    var actionTaken: string

    function State(): AlertRecord
      reads this
    {
      AlertRecord(timestamp, alertType, Some(description), severity, status, confidence,
                  acknowledgedAt, resolvedAt, actionTaken)
    }

    constructor (now: Time)
      ensures State() == NewEnhancedAlert(now)
    {
      timestamp := now;
      alertType := "";
      description := "";
      severity := "medium";
      status := "active";
      confidence := 1.0;
      acknowledgedAt := None;
      resolvedAt := None;
      actionTaken := "";
    }

    /** The user is never recorded: the record has no `acknowledged_by`. */
    method Acknowledge(user: Option<nat>, now: Time)
      modifies this
      ensures State() == AcknowledgeSpec(old(State()), now)
    {
      status := "acknowledged";
      acknowledgedAt := Some(now);
    }

    /** The user is never recorded: the record has no `resolved_by`. */
    method Resolve(actionTaken: string, user: Option<nat>, now: Time)
      modifies this
      ensures State() == ResolveSpec(old(State()), actionTaken, now)
    {
      status := "resolved";
      resolvedAt := Some(now);
      this.actionTaken := actionTaken;
    }
  }
}
