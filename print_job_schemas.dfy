/** The request bodies of the print job API (backend/app/schemas/print_jobs.py)
    and their validation as pydantic performs it: a body is a record of
    `Input`s, one per field, and validation either yields the typed record or
    the set of names of the fields that fail.  Values of the wrong JSON type
    are not modelled (each input already has the field's type); timestamps
    are integers. */
module PrintJobSchemas {
  import opened Common

  // Field helpers shared with the other schemas.

  /** A required string with length bounds. */
  function RequiredString(i: Input<string>, lo: nat, hi: nat): (r: Option<string>)
    ensures r.Some? <==> i.Given? && lo <= |i.value| <= hi
    ensures r.Some? ==> r.value == i.value
  {
    if i.Given? && lo <= |i.value| <= hi then Some(i.value) else None
  }

  /** An optional string (`None` by default) with a maximum length. */
  function OptionalString(i: Input<string>, hi: nat): (r: Option<Option<string>>)
    ensures r.None? <==> i.Given? && |i.value| > hi
    ensures r.Some? ==> r.value == (if i.Given? then Some(i.value) else None)
  {
    match i
    case Given(s) => if |s| <= hi then Some(Some(s)) else None
    case _ => Some(None)
  }

  /** A required integer with bounds. */
  function RequiredInt(i: Input<int>, lo: int, hi: int): (r: Option<int>)
    ensures r.Some? <==> i.Given? && lo <= i.value <= hi
    ensures r.Some? ==> r.value == i.value
  {
    if i.Given? && lo <= i.value <= hi then Some(i.value) else None
  }

  /** A non-optional integer with a default: an omitted field takes the
      default (defaults are not validated), `null` is refused. */
  function DefaultedInt(i: Input<int>, default: int, lo: int, hi: int): (r: Option<int>)
    ensures i.Omitted? ==> r == Some(default)
    ensures i.ExplicitNull? ==> r == None
    ensures i.Given? ==> (r.Some? <==> lo <= i.value <= hi) && (r.Some? ==> r.value == i.value)
  {
    match i
    case Omitted => Some(default)
    case ExplicitNull => None
    case Given(v) => if lo <= v <= hi then Some(v) else None
  }

  /** A non-optional boolean with a default. */
  function DefaultedBool(i: Input<bool>, default: bool): (r: Option<bool>)
    ensures i.Omitted? ==> r == Some(default)
    ensures i.ExplicitNull? ==> r == None
    ensures i.Given? ==> r == Some(i.value)
  {
    match i
    case Omitted => Some(default)
    case ExplicitNull => None
    case Given(b) => Some(b)
  }

  /** An optional integer with a lower bound. */
  function OptionalIntAtLeast(i: Input<int>, lo: int): (r: Option<Option<int>>)
    ensures r.None? <==> i.Given? && i.value < lo
    ensures r.Some? ==> r.value == (if i.Given? then Some(i.value) else None)
  {
    match i
    case Given(v) => if v >= lo then Some(Some(v)) else None
    case _ => Some(None)
  }

  /** The raw body of `PrintJobCreate`. */
  datatype PrintJobInput = PrintJobInput(
    username: Input<string>, pcName: Input<string>, printerName: Input<string>,
    printerIp: Input<string>, documentName: Input<string>, pages: Input<int>, copies: Input<int>,
    isDuplex: Input<bool>, isColor: Input<bool>, printTime: Input<int>,
    agentVersion: Input<string>, jobSizeBytes: Input<int>,
    siteId: Input<string>, companyName: Input<string>)

  /** A validated `PrintJobCreate`. */
  datatype PrintJobCreate = PrintJobCreate(
    username: string, pcName: string, printerName: string, printerIp: Option<string>,
    documentName: string, pages: int, copies: int, isDuplex: bool, isColor: bool,
    printTime: int, agentVersion: Option<string>, jobSizeBytes: Option<int>,
    siteId: string, companyName: string)

  /** The field constraints of `PrintJobBase` and `PrintJobCreate`. */
  predicate WithinBounds(j: PrintJobCreate)
  {
    && 1 <= |j.username| <= 100
    && 1 <= |j.pcName| <= 255 && 1 <= |j.printerName| <= 255
    && (j.printerIp.Some? ==> |j.printerIp.value| <= 45)
    && 1 <= |j.documentName| <= 500
    && 1 <= j.pages <= 10000 && 1 <= j.copies <= 1000
    && (j.agentVersion.Some? ==> |j.agentVersion.value| <= 50)
    && (j.jobSizeBytes.Some? ==> j.jobSizeBytes.value >= 0)
    && 1 <= |j.siteId| <= 50 && 1 <= |j.companyName| <= 255
  }

  /** The `set_print_time` validator (`pre=True, always=True`): a missing or
      null time becomes `now`. */
  function PrintTime(i: Input<int>, now: int): (t: int)
    ensures i.Given? ==> t == i.value
    ensures !i.Given? ==> t == now
  {
    if i.Given? then i.value else now
  }

  /** The names of the fields of `b` that fail validation. */
  function CreateErrors(b: PrintJobInput): (e: set<string>)
  {
    (if RequiredString(b.username, 1, 100).None? then {"username"} else {})
    + (if RequiredString(b.pcName, 1, 255).None? then {"pc_name"} else {})
    + (if RequiredString(b.printerName, 1, 255).None? then {"printer_name"} else {})
    + (if OptionalString(b.printerIp, 45).None? then {"printer_ip"} else {})
    + (if RequiredString(b.documentName, 1, 500).None? then {"document_name"} else {})
    + (if RequiredInt(b.pages, 1, 10000).None? then {"pages"} else {})
    + (if DefaultedInt(b.copies, 1, 1, 1000).None? then {"copies"} else {})
    + (if DefaultedBool(b.isDuplex, false).None? then {"is_duplex"} else {})
    + (if DefaultedBool(b.isColor, false).None? then {"is_color"} else {})
    + (if OptionalString(b.agentVersion, 50).None? then {"agent_version"} else {})
    + (if OptionalIntAtLeast(b.jobSizeBytes, 0).None? then {"job_size_bytes"} else {})
    + (if RequiredString(b.siteId, 1, 50).None? then {"site_id"} else {})
    + (if RequiredString(b.companyName, 1, 255).None? then {"company_name"} else {})
  }

  /** Validation of a `PrintJobCreate` body at time `now`. */
  function ValidateCreate(b: PrintJobInput, now: int): (r: Result<PrintJobCreate, set<string>>)
    ensures r.Err? <==> CreateErrors(b) != {}
    ensures r.Err? ==> r.error == CreateErrors(b)
    ensures r.Ok? ==> WithinBounds(r.value)
    ensures r.Ok? ==> r.value.printTime == PrintTime(b.printTime, now)
    ensures r.Ok? && b.copies.Omitted? ==> r.value.copies == 1
    ensures r.Ok? && b.isDuplex.Omitted? ==> !r.value.isDuplex
    ensures r.Ok? && b.isColor.Omitted? ==> !r.value.isColor
    ensures r.Ok? ==> Given(r.value.username) == b.username && Given(r.value.siteId) == b.siteId
                      && Given(r.value.pages) == b.pages && Given(r.value.documentName) == b.documentName
  {
    if CreateErrors(b) != {} then Err(CreateErrors(b))
    else
      Ok(PrintJobCreate(
        RequiredString(b.username, 1, 100).value,
        RequiredString(b.pcName, 1, 255).value,
        RequiredString(b.printerName, 1, 255).value,
        OptionalString(b.printerIp, 45).value,
        RequiredString(b.documentName, 1, 500).value,
        RequiredInt(b.pages, 1, 10000).value,
        DefaultedInt(b.copies, 1, 1, 1000).value,
        DefaultedBool(b.isDuplex, false).value,
        DefaultedBool(b.isColor, false).value,
        PrintTime(b.printTime, now),
        OptionalString(b.agentVersion, 50).value,
        OptionalIntAtLeast(b.jobSizeBytes, 0).value,
        RequiredString(b.siteId, 1, 50).value,
        RequiredString(b.companyName, 1, 255).value))
  }

  /** Every in-bounds record is accepted when sent field by field. */
  lemma AcceptsWithinBounds(j: PrintJobCreate, now: int)
    requires WithinBounds(j)
    ensures ValidateCreate(AsInput(j), now) == Ok(j)
  {
  }

  /** `j` as a body with every field given. */
  function AsInput(j: PrintJobCreate): PrintJobInput
  {
    PrintJobInput(
      Given(j.username), Given(j.pcName), Given(j.printerName),
      if j.printerIp.Some? then Given(j.printerIp.value) else ExplicitNull,
      Given(j.documentName), Given(j.pages), Given(j.copies), Given(j.isDuplex), Given(j.isColor),
      Given(j.printTime),
      if j.agentVersion.Some? then Given(j.agentVersion.value) else ExplicitNull,
      if j.jobSizeBytes.Some? then Given(j.jobSizeBytes.value) else ExplicitNull,
      Given(j.siteId), Given(j.companyName))
  }

  /** `PrintJobFilter`: every field optional; an omitted field and a null
      one both mean "no filter". */
  datatype PrintJobFilter = PrintJobFilter(
    username: Option<string>, pcName: Option<string>, printerName: Option<string>,
    siteId: Option<string>, startDate: Option<int>, endDate: Option<int>,
    isColor: Option<bool>, isDuplex: Option<bool>, minPages: Option<int>, maxPages: Option<int>)

  /** The filter with nothing set. */
  const NoFilter := PrintJobFilter(None, None, None, None, None, None, None, None, None, None)

  /** The page bounds of a filter must be at least 1 when given. */
  function ValidateFilter(f: PrintJobFilter): (r: Result<PrintJobFilter, set<string>>)
    ensures r.Ok? <==> (f.minPages.Some? ==> f.minPages.value >= 1) && (f.maxPages.Some? ==> f.maxPages.value >= 1)
    ensures r.Ok? ==> r.value == f
    ensures r.Err? ==> r.error <= {"min_pages", "max_pages"} && r.error != {}
  {
    var e := (if f.minPages.Some? && f.minPages.value < 1 then {"min_pages"} else {})
           + (if f.maxPages.Some? && f.maxPages.value < 1 then {"max_pages"} else {});
    if e == {} then Ok(f) else Err(e)
  }

  /** `PrintJobBatch`: between 1 and 1000 valid jobs. */
  function ValidateBatch(bodies: seq<PrintJobInput>, now: int): (r: Result<seq<PrintJobCreate>, set<string>>)
    ensures r.Ok? <==> 1 <= |bodies| <= 1000 && forall k :: 0 <= k < |bodies| ==> ValidateCreate(bodies[k], now).Ok?
    ensures r.Ok? ==> |r.value| == |bodies|
                      && forall k :: 0 <= k < |bodies| ==> r.value[k] == ValidateCreate(bodies[k], now).value
    ensures !(1 <= |bodies| <= 1000) ==> r == Err({"jobs"})
  {
    if !(1 <= |bodies| <= 1000) then Err({"jobs"})
    else if forall k :: 0 <= k < |bodies| ==> ValidateCreate(bodies[k], now).Ok? then
      Ok(seq(|bodies|, k requires 0 <= k < |bodies| && ValidateCreate(bodies[k], now).Ok? =>
               ValidateCreate(bodies[k], now).value))
    else Err({"jobs"})
  }
}
