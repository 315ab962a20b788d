/** The reports screen: the list of reports, the new-report form with its
    validation, the payload sent on create, the status update from the
    modal, and the badges each list entry is drawn with. */
module Reports {
  import opened Wrappers

  /** A coordinate value, represented by the text it was parsed from
      (`parseFloat` itself and number formatting are not modelled). */
  datatype Coordinate = ParseFloat(text: string)

  /** A GeoJSON-style point: `coordinates` is `[longitude, latitude]`. */
  datatype Location = Location(geoType: string, coordinates: seq<Coordinate>)

  datatype ReportData = ReportData(descripcion: string)

  /** A report as the list endpoint returns it. */
  datatype Report = Report(id: string, reportType: string, status: string, location: Location, data: ReportData)

  /** The body of the create request. */
  datatype NewReport = NewReport(userId: string, reportType: string, location: Location, data: ReportData, status: string)

  /** The status update request: its target report and its body. */
  datatype StatusUpdate = StatusUpdate(reportId: string, status: string)

  /** The form's five fields. */
  datatype ReportForm = ReportForm(reportType: string, status: string, latitude: string, longitude: string, descripcion: string)

  datatype TypeBadge = UrgentBadge | NormalBadge
  datatype StatusBadge = PendingBadge | InProgressBadge | ResolvedBadge

  /** The values the two pickers offer. */
  const ReportTypes: seq<string> := ["URGENTE", "NORMAL", "INFORMATIVO"]
  const Statuses: seq<string> := ["PENDIENTE", "EN_PROCESO", "RESUELTO"]

  const FixedUserId := "123"

  /** The create handler refuses a form with an empty latitude, longitude or
      description. */
  predicate MissingField(form: ReportForm) {
    form.latitude == "" || form.longitude == "" || form.descripcion == ""
  }

  /** The position a list entry shows: `coordinates[1]` then `coordinates[0]`,
      that is latitude first. */
  function ShownPosition(location: Location): (latLon: (Coordinate, Coordinate))
    requires |location.coordinates| >= 2
  {
    (location.coordinates[1], location.coordinates[0])
  }

  /** The create request for a form: a `Point` at `[longitude, latitude]`,
      the description wrapped in `data`, the form's type and status and the
      fixed user id. Shown back, its position reads as the latitude and the
      longitude that were typed in. */
  function Payload(form: ReportForm): (p: NewReport)
    ensures p.userId == FixedUserId && p.reportType == form.reportType && p.status == form.status
    ensures p.data == ReportData(form.descripcion) && p.location.geoType == "Point"
    ensures |p.location.coordinates| == 2
    ensures ShownPosition(p.location) == (ParseFloat(form.latitude), ParseFloat(form.longitude))
  {
    NewReport(FixedUserId, form.reportType,
              Location("Point", [ParseFloat(form.longitude), ParseFloat(form.latitude)]),
              ReportData(form.descripcion), form.status)
  }

  /** The type badge: urgent exactly for `URGENTE`. */
  function TypeBadgeOf(reportType: string): (b: TypeBadge)
    ensures b == UrgentBadge <==> reportType == "URGENTE"
  {
    if reportType == "URGENTE" then UrgentBadge else NormalBadge
  }

  /** The status badge: pending for `PENDIENTE`, in progress for
      `EN_PROCESO`, resolved for anything else. */
  function StatusBadgeOf(status: string): (b: StatusBadge)
    ensures b == PendingBadge <==> status == "PENDIENTE"
    ensures b == InProgressBadge <==> status == "EN_PROCESO"
  {
    if status == "PENDIENTE" then PendingBadge
    else if status == "EN_PROCESO" then InProgressBadge
    else ResolvedBadge
  }

  /** Of the three report types the picker offers, only the first is drawn
      urgent; the other two share the normal badge. */
  lemma PickerTypeBadges()
    ensures TypeBadgeOf(ReportTypes[0]) == UrgentBadge
    ensures TypeBadgeOf(ReportTypes[1]) == NormalBadge && TypeBadgeOf(ReportTypes[2]) == NormalBadge
  {
  }

  /** The three statuses the pickers offer get three different badges, and
      any other status is drawn as resolved. */
  lemma PickerStatusBadges(i: nat, j: nat, other: string)
    requires i < 3 && j < 3 && i != j && other !in Statuses
    ensures StatusBadgeOf(Statuses[i]) != StatusBadgeOf(Statuses[j])
    ensures StatusBadgeOf(Statuses[2]) == ResolvedBadge && StatusBadgeOf(other) == ResolvedBadge
  {
    assert "PENDIENTE" == Statuses[0] && "EN_PROCESO" == Statuses[1];
  }

  class ReportsScreen {
    var reports: seq<Report>
    var loading: bool
    var reportType: string
    var status: string
    var latitude: string
    var longitude: string
    var descripcion: string
    var modalVisible: bool
    var selectedReport: Option<Report>

    /** The screen as mounted: no reports yet, loading, and a form preset to
        an urgent, pending report. */
    constructor ()
      ensures reports == [] && loading
      ensures Form() == ReportForm("URGENTE", "PENDIENTE", "", "", "")
      ensures !modalVisible && selectedReport == None
    {
      reports, loading := [], true;
      reportType, status, latitude, longitude, descripcion := "URGENTE", "PENDIENTE", "", "", "";
      modalVisible, selectedReport := false, None;
    }

    /** The form fields as one value. */
    function Form(): ReportForm
      reads this
    {
      ReportForm(reportType, status, latitude, longitude, descripcion)
    }

    /** The start of `fetchReports`. */
    method BeginFetchReports()
      modifies this
      ensures loading
      ensures reports == old(reports) && Form() == old(Form())
      ensures modalVisible == old(modalVisible) && selectedReport == old(selectedReport)
    {
      loading := true;
    }

    /** The end of `fetchReports`: the list is replaced on success and kept on
        failure; loading ends either way. */
    method FinishFetchReports(response: Outcome<seq<Report>>)
      modifies this
      ensures !loading
      ensures reports == if response.Success? then response.data else old(reports)
      ensures Form() == old(Form())
      ensures modalVisible == old(modalVisible) && selectedReport == old(selectedReport)
    {
      if response.Success? {
        reports := response.data;
      }
      loading := false;
    }

    /** A whole fetch, from request to response. */
    method FetchReports(response: Outcome<seq<Report>>)
      modifies this
      ensures !loading
      ensures reports == if response.Success? then response.data else old(reports)
      ensures Form() == old(Form())
      ensures modalVisible == old(modalVisible) && selectedReport == old(selectedReport)
    {
      BeginFetchReports();
      FinishFetchReports(response);
    }

    /** `createReport`: with a missing field nothing is sent. Otherwise the
        payload is sent; when the server accepts it, the position and the
        description are cleared (type and status stay) and a refetch starts;
        when it refuses, the form is left as it was. */
    method CreateReport(accepted: bool) returns (sent: Option<NewReport>)
      modifies this
      ensures sent.None? <==> MissingField(old(Form()))
      ensures sent.Some? ==> sent.value == Payload(old(Form()))
      ensures sent.Some? && accepted ==>
        Form() == old(Form()).(latitude := "", longitude := "", descripcion := "") && loading
      ensures !(sent.Some? && accepted) ==> Form() == old(Form()) && loading == old(loading)
      ensures reports == old(reports)
      ensures modalVisible == old(modalVisible) && selectedReport == old(selectedReport)
    {
      if latitude == "" || longitude == "" || descripcion == "" {
        return None;
      }
      sent := Some(Payload(Form()));
      if accepted {
        descripcion := "";
        latitude := "";
        longitude := "";
        BeginFetchReports();
      }
    }

    /** `updateReportStatus`: the request is always sent; on success a refetch
        starts and the modal closes, on failure the modal stays open. */
    method UpdateReportStatus(reportId: string, newStatus: string, accepted: bool) returns (sent: StatusUpdate)
      modifies this
      ensures sent == StatusUpdate(reportId, newStatus)
      ensures accepted ==> loading && !modalVisible
      ensures !accepted ==> loading == old(loading) && modalVisible == old(modalVisible)
      ensures reports == old(reports) && Form() == old(Form()) && selectedReport == old(selectedReport)
    {
      sent := StatusUpdate(reportId, newStatus);
      if accepted {
        BeginFetchReports();
        modalVisible := false;
      }
    }

    /** Tapping a list entry selects it and opens the status modal. */
    method SelectReport(item: Report)
      modifies this
      ensures selectedReport == Some(item) && modalVisible
      ensures reports == old(reports) && loading == old(loading) && Form() == old(Form())
    {
      selectedReport := Some(item);
      modalVisible := true;
    }

    /** The modal's picker: a new status updates the selected report, if any. */
    method PickStatus(newStatus: string, accepted: bool) returns (sent: Option<StatusUpdate>)
      modifies this
      ensures sent.Some? <==> old(selectedReport).Some?
      ensures sent.Some? ==> sent.value == StatusUpdate(old(selectedReport).value.id, newStatus)
      ensures sent.Some? && accepted ==> loading && !modalVisible
      ensures !(sent.Some? && accepted) ==> loading == old(loading) && modalVisible == old(modalVisible)
      ensures reports == old(reports) && Form() == old(Form()) && selectedReport == old(selectedReport)
    {
      if selectedReport.None? {
        return None;
      }
      var update := UpdateReportStatus(selectedReport.value.id, newStatus, accepted);
      sent := Some(update);
    }

    /** The modal's close button and the back gesture. */
    method CloseModal()
      modifies this
      ensures !modalVisible
      ensures reports == old(reports) && loading == old(loading) && Form() == old(Form())
      ensures selectedReport == old(selectedReport)
    {
      modalVisible := false;
    }
  }
}
