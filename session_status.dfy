/**
 The status of an AR cup session: a closed enumeration whose cases carry a
 raw string value and a human-readable description shown in the status label.
 */
module SessionStatus {
  import opened Wrappers

  datatype Status = Initialized | Ready | TemporarilyUnavailable | Failed

  /** Every case of the enumeration. */
  const AllStatuses: set<Status> := {Initialized, Ready, TemporarilyUnavailable, Failed}

  /** The raw value each case is declared with: each string belongs to its own case only. */
  function RawValue(s: Status): (r: string)
    ensures (r == "initialized") == (s == Initialized)
    ensures (r == "ready") == (s == Ready)
    ensures (r == "temporarily unavailable") == (s == TemporarilyUnavailable)
    ensures (r == "failed") == (s == Failed)
  {
    match s
    case Initialized => "initialized"
    case Ready => "ready"
    case TemporarilyUnavailable => "temporarily unavailable"
    case Failed => "failed"
  }

  /** The failable initialiser from a raw value that a string-backed enumeration provides. */
  function FromRawValue(raw: string): (r: Option<Status>)
    ensures r.Some? ==> RawValue(r.value) == raw
    ensures r.None? ==> forall s: Status :: RawValue(s) != raw
  {
    if raw == "initialized" then Some(Initialized)
    else if raw == "ready" then Some(Ready)
    else if raw == "temporarily unavailable" then Some(TemporarilyUnavailable)
    else if raw == "failed" then Some(Failed)
    else None
  }

  const InitializedText: string := "\U{1F440} Look for a plane to place your cup"
  const ReadyText: string := "\U{1F37A} Click any plane to place your cup!"
  const TemporarilyUnavailableText: string := "\U{1F631} Adjusting alcoholism levels. Please wait"
  const FailedText: string := "\U{26D4} Alcohol crisis! Please restart App"

  /** The text published to the status label for each case: each text belongs to its own case only. */
  function Description(s: Status): (d: string)
    ensures (d == InitializedText) == (s == Initialized)
    ensures (d == ReadyText) == (s == Ready)
    ensures (d == TemporarilyUnavailableText) == (s == TemporarilyUnavailable)
    ensures (d == FailedText) == (s == Failed)
  {
    match s
    case Initialized => InitializedText
    case Ready => ReadyText
    case TemporarilyUnavailable => TemporarilyUnavailableText
    case Failed => FailedText
  }

  /** Reads a status back from the label text; the inverse of Description. */
  function StatusOfLabel(text: string): (r: Option<Status>)
    ensures r.Some? ==> Description(r.value) == text
    ensures r.None? ==> forall s: Status :: Description(s) != text
  {
    if text == Description(Initialized) then Some(Initialized)
    else if text == Description(Ready) then Some(Ready)
    else if text == Description(TemporarilyUnavailable) then Some(TemporarilyUnavailable)
    else if text == Description(Failed) then Some(Failed)
    else None
  }

  /** The enumeration has exactly the four declared cases. */
  lemma ExactlyFourCases()
    ensures forall s: Status :: s in AllStatuses
    ensures |AllStatuses| == 4
  {
    forall s: Status ensures s in AllStatuses {
      match s
      case Initialized =>
      case Ready =>
      case TemporarilyUnavailable =>
      case Failed =>
    }
    assert AllStatuses == {Initialized} + {Ready} + {TemporarilyUnavailable} + {Failed};
  }

  /** Converting a case to its raw value and back gives the same case. */
  lemma RawValueRoundTrip(s: Status)
    ensures FromRawValue(RawValue(s)) == Some(s)
  {
  }

  /** The raw values are pairwise distinct. */
  lemma RawValueInjective(a: Status, b: Status)
    ensures RawValue(a) == RawValue(b) <==> a == b
  {
    RawValueRoundTrip(a);
    RawValueRoundTrip(b);
  }

  /** The label text identifies the status it was published for. */
  lemma DescriptionRoundTrip(s: Status)
    ensures StatusOfLabel(Description(s)) == Some(s)
  {
  }

  /** The four descriptions are pairwise distinct. */
  lemma DescriptionInjective(a: Status, b: Status)
    ensures Description(a) == Description(b) <==> a == b
  {
    DescriptionRoundTrip(a);
    DescriptionRoundTrip(b);
  }
}
