/** The closed set of update-lifecycle states and their stable wire identifiers. */
module Status {
  import opened Wrappers

  datatype UpdateStatus =
    | Idle
    | CheckingForUpdate
    | UpdateAvailable
    | Downloading
    | Verifying
    | Finalizing
    | UpdatedNeedReboot
    | ReportingErrorEvent

  /** Every variant, in declaration order. */
  const AllStatuses: seq<UpdateStatus> :=
    [Idle, CheckingForUpdate, UpdateAvailable, Downloading,
     Verifying, Finalizing, UpdatedNeedReboot, ReportingErrorEvent]

  const WirePrefix: string := "UPDATE_STATUS_"

  /** The string a status dereferences to; it is sent on the bus and written to the log. */
  function WireName(s: UpdateStatus): (w: string)
    ensures |WirePrefix| < |w| && w[..|WirePrefix|] == WirePrefix
  {
    match s
    case Idle => "UPDATE_STATUS_IDLE"
    case CheckingForUpdate => "UPDATE_STATUS_CHECKING_FOR_UPDATE"
    case UpdateAvailable => "UPDATE_STATUS_UPDATE_AVAILABLE"
    case Downloading => "UPDATE_STATUS_DOWNLOADING"
    case Verifying => "UPDATE_STATUS_VERIFYING"
    case Finalizing => "UPDATE_STATUS_FINALIZING"
    case UpdatedNeedReboot => "UPDATE_STATUS_UPDATED_NEED_REBOOT"
    case ReportingErrorEvent => "UPDATE_STATUS_REPORTING_ERROR_EVENT"
  }

  /** How a bus client reads a status back: the variant whose wire name is `w`, if any. */
  function ParseWireName(w: string): (r: Option<UpdateStatus>)
    ensures r.Some? ==> r.value in AllStatuses
  {
    if w == "UPDATE_STATUS_IDLE" then Some(Idle)
    else if w == "UPDATE_STATUS_CHECKING_FOR_UPDATE" then Some(CheckingForUpdate)
    else if w == "UPDATE_STATUS_UPDATE_AVAILABLE" then Some(UpdateAvailable)
    else if w == "UPDATE_STATUS_DOWNLOADING" then Some(Downloading)
    else if w == "UPDATE_STATUS_VERIFYING" then Some(Verifying)
    else if w == "UPDATE_STATUS_FINALIZING" then Some(Finalizing)
    else if w == "UPDATE_STATUS_UPDATED_NEED_REBOOT" then Some(UpdatedNeedReboot)
    else if w == "UPDATE_STATUS_REPORTING_ERROR_EVENT" then Some(ReportingErrorEvent)
    else None
  }

  /** Reading back the wire name of any status yields that status. */
  lemma WireNameRoundTrip(s: UpdateStatus)
    ensures ParseWireName(WireName(s)) == Some(s)
  {
    match s
    case Idle =>
    case CheckingForUpdate =>
      assert WireName(s)[14] != "UPDATE_STATUS_IDLE"[14];
    case UpdateAvailable =>
      assert WireName(s)[14] == 'U';
    case Downloading =>
    case Verifying =>
    case Finalizing =>
    case UpdatedNeedReboot =>
      assert WireName(s)[14] == 'U';
    case ReportingErrorEvent =>
  }

  /** Distinct statuses have distinct wire names. */
  lemma WireNameInjective(a: UpdateStatus, b: UpdateStatus)
    ensures WireName(a) == WireName(b) ==> a == b
  {
    WireNameRoundTrip(a);
    WireNameRoundTrip(b);
  }

  /** Every string a client can parse is the wire name of exactly the status it parses to. */
  lemma ParseWireNameSound(w: string)
    ensures ParseWireName(w).Some? ==> WireName(ParseWireName(w).value) == w
  {
    if w == "UPDATE_STATUS_IDLE" {
      assert ParseWireName(w) == Some(Idle);
    } else if w == "UPDATE_STATUS_CHECKING_FOR_UPDATE" {
      assert ParseWireName(w) == Some(CheckingForUpdate);
    } else if w == "UPDATE_STATUS_UPDATE_AVAILABLE" {
      assert ParseWireName(w) == Some(UpdateAvailable);
    } else if w == "UPDATE_STATUS_DOWNLOADING" {
      assert ParseWireName(w) == Some(Downloading);
    } else if w == "UPDATE_STATUS_VERIFYING" {
      assert ParseWireName(w) == Some(Verifying);
    } else if w == "UPDATE_STATUS_FINALIZING" {
      assert ParseWireName(w) == Some(Finalizing);
    } else if w == "UPDATE_STATUS_UPDATED_NEED_REBOOT" {
      assert ParseWireName(w) == Some(UpdatedNeedReboot);
    } else if w == "UPDATE_STATUS_REPORTING_ERROR_EVENT" {
      assert ParseWireName(w) == Some(ReportingErrorEvent);
    } else {
      assert ParseWireName(w) == None;
    }
  }

  /** The eight wire names are pairwise distinct: the mapping is total and injective. */
  lemma WireNamesPairwiseDistinct()
    ensures |AllStatuses| == 8
    ensures forall s: UpdateStatus :: s in AllStatuses
    ensures forall i, j :: 0 <= i < j < |AllStatuses| ==> WireName(AllStatuses[i]) != WireName(AllStatuses[j])
  {
    forall s: UpdateStatus
      ensures s in AllStatuses
    {
      match s
      case Idle => assert AllStatuses[0] == s;
      case CheckingForUpdate => assert AllStatuses[1] == s;
      case UpdateAvailable => assert AllStatuses[2] == s;
      case Downloading => assert AllStatuses[3] == s;
      case Verifying => assert AllStatuses[4] == s;
      case Finalizing => assert AllStatuses[5] == s;
      case UpdatedNeedReboot => assert AllStatuses[6] == s;
      case ReportingErrorEvent => assert AllStatuses[7] == s;
    }
    forall i, j | 0 <= i < j < |AllStatuses|
      ensures WireName(AllStatuses[i]) != WireName(AllStatuses[j])
    {
      WireNameInjective(AllStatuses[i], AllStatuses[j]);
    }
  }
}
