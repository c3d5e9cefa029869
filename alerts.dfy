/** An alert as delivered by Alertmanager's webhook. */
module Alerts {
  import opened Wrappers
  import opened Dicts

  datatype AlertStatus = Firing | Resolved

  function AlertStatusValue(s: AlertStatus): (r: string)
    ensures r == "firing" <==> s == Firing
    ensures r == "resolved" <==> s == Resolved
  {
    match s
    case Firing => "firing"
    case Resolved => "resolved"
  }

  /** Timestamps are seconds on one clock; the labels and annotations keep the
      order in which the payload listed them. */
  datatype Alert = Alert(
    status: AlertStatus,
    labels: Dict<string>,
    annotations: Dict<string>,
    startsAt: int,
    endsAt: int,
    generatorUrl: string,
    fingerprint: string)

  /** An alert built with only its required fields. */
  function NewAlert(status: AlertStatus, startsAt: int, endsAt: int): (a: Alert)
    ensures a.status == status && a.startsAt == startsAt && a.endsAt == endsAt
    ensures a.labels == [] && a.annotations == []
    ensures a.generatorUrl == "" && a.fingerprint == ""
  {
    Alert(status, [], [], startsAt, endsAt, "", "")
  }

  /** `labels.get(key, default)` */
  function LabelOr(labels: Dict<string>, key: string, default: string): (r: string)
    ensures HasKey(labels, key) ==> Get(labels, key) == Some(r)
    ensures !HasKey(labels, key) ==> r == default
  {
    Get(labels, key).GetOr(default)
  }

  function AlertName(a: Alert): string
  {
    LabelOr(a.labels, "alertname", "unknown")
  }

  function Severity(a: Alert): string
  {
    LabelOr(a.labels, "severity", "unknown")
  }

  function Instance(a: Alert): string
  {
    LabelOr(a.labels, "instance", "unknown")
  }

  /** Each accessor reads its own label and falls back to "unknown". */
  lemma AccessorsReadLabels(a: Alert)
    ensures HasKey(a.labels, "alertname") ==> Get(a.labels, "alertname") == Some(AlertName(a))
    ensures HasKey(a.labels, "severity") ==> Get(a.labels, "severity") == Some(Severity(a))
    ensures HasKey(a.labels, "instance") ==> Get(a.labels, "instance") == Some(Instance(a))
    ensures !HasKey(a.labels, "alertname") ==> AlertName(a) == "unknown"
    ensures !HasKey(a.labels, "severity") ==> Severity(a) == "unknown"
    ensures !HasKey(a.labels, "instance") ==> Instance(a) == "unknown"
  {
  }

  /** An alert without labels is named, ranked and located as "unknown". */
  lemma UnlabelledAlertIsUnknown(status: AlertStatus, startsAt: int, endsAt: int)
    ensures var a := NewAlert(status, startsAt, endsAt);
      AlertName(a) == "unknown" && Severity(a) == "unknown" && Instance(a) == "unknown"
  {
  }
}
