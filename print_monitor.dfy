/** The record-building side of the agent's print monitor
    (agent/src/print_monitor.py): how a print job event becomes the job
    record handed to the callback, and the colour and duplex rules for a
    printer.  The WMI objects are plain records whose attributes may be
    missing (`getattr` then yields its default) or `None`; the printer query
    is a function from a printer name to the printers found, or to nothing
    when the query raises. */
module PrintMonitor {
  import opened Common
  import opened Text

  /** A `Win32_PrintJob` event. */
  datatype WmiPrintJob = WmiPrintJob(
    jobId: Input<int>, document: Input<string>, name: Input<string>, owner: Input<string>,
    totalPages: Input<int>, size: Input<int>, status: Input<string>, timeSubmitted: Input<string>)

  /** A `Win32_Printer`. */
  datatype WmiPrinter = WmiPrinter(
    portName: Input<string>, driverName: Input<string>, location: Input<string>, capabilities: Input<seq<int>>)

  const ColorCodes: set<int> := {4, 5}
  const ColorKeywords: seq<string> := ["color", "colour", "clr"]
  const DuplexCodes: set<int> := {6, 7}
  const DuplexKeywords: seq<string> := ["duplex", "double", "two-sided"]

  /** `getattr(obj, name, default)` on a string attribute. */
  function StrAttr(a: Input<string>, default: string): Value
  {
    match a
    case Omitted => Str(default)
    case ExplicitNull => Null
    case Given(s) => Str(s)
  }

  /** `getattr(obj, name, default)` on an integer attribute. */
  function IntAttr(a: Input<int>, default: Value): Value
  {
    match a
    case Omitted => default
    case ExplicitNull => Null
    case Given(i) => Int(i)
  }

  /** The capability codes, `[]` when the attribute is missing or `None`. */
  function Capabilities(p: WmiPrinter): seq<int>
  {
    if p.capabilities.Given? then p.capabilities.value else []
  }

  /** Some keyword occurs in the lower-cased driver name.  A missing
      driver name is `''`, which holds no keyword; a `None` one makes
      `.lower()` raise, which the rule answers with false. */
  predicate DriverMentions(driver: Input<string>, keywords: seq<string>)
  {
    driver.Given? && exists k :: 0 <= k < |keywords| && Contains(Lower(driver.value), keywords[k])
  }

  /** The shared shape of `_is_color_printer` and `_is_duplex_capable`: the
      capability codes decide when there are any, the driver name
      otherwise. */
  predicate Capable(p: WmiPrinter, codes: set<int>, keywords: seq<string>)
  {
    var caps := Capabilities(p);
    if |caps| > 0 then exists i :: 0 <= i < |caps| && caps[i] in codes
    else DriverMentions(p.driverName, keywords)
  }

  /** `_is_color_printer`. */
  function IsColorPrinter(p: WmiPrinter): (r: bool)
    ensures |Capabilities(p)| > 0 ==> (r <==> exists i :: 0 <= i < |Capabilities(p)| && Capabilities(p)[i] in {4, 5})
    ensures |Capabilities(p)| == 0 ==>
              (r <==> p.driverName.Given? && (Contains(Lower(p.driverName.value), "color") ||
                                              Contains(Lower(p.driverName.value), "colour") ||
                                              Contains(Lower(p.driverName.value), "clr")))
  {
    assert ColorKeywords[0] == "color" && ColorKeywords[1] == "colour" && ColorKeywords[2] == "clr";
    Capable(p, ColorCodes, ColorKeywords)
  }

  /** `_is_duplex_capable`. */
  function IsDuplexCapable(p: WmiPrinter): (r: bool)
    ensures |Capabilities(p)| > 0 ==> (r <==> exists i :: 0 <= i < |Capabilities(p)| && Capabilities(p)[i] in {6, 7})
    ensures |Capabilities(p)| == 0 ==>
              (r <==> p.driverName.Given? && (Contains(Lower(p.driverName.value), "duplex") ||
                                              Contains(Lower(p.driverName.value), "double") ||
                                              Contains(Lower(p.driverName.value), "two-sided")))
  {
    assert DuplexKeywords[0] == "duplex" && DuplexKeywords[1] == "double" && DuplexKeywords[2] == "two-sided";
    Capable(p, DuplexCodes, DuplexKeywords)
  }

  /** With capability codes present the driver name plays no part. */
  lemma CapabilitiesOverrideDriver(p: WmiPrinter, driver: Input<string>)
    requires |Capabilities(p)| > 0
    ensures IsColorPrinter(p.(driverName := driver)) == IsColorPrinter(p)
    ensures IsDuplexCapable(p.(driverName := driver)) == IsDuplexCapable(p)
  {
  }

  lemma LowerOfUpperChar(c: char)
    ensures LowerChar(UpperChar(c)) == LowerChar(c)
  {
  }

  /** The keyword test ignores ASCII case. */
  lemma DriverTestIgnoresCase(p: WmiPrinter)
    requires p.driverName.Given?
    ensures IsColorPrinter(p.(driverName := Given(Upper(p.driverName.value)))) == IsColorPrinter(p)
    ensures IsDuplexCapable(p.(driverName := Given(Upper(p.driverName.value)))) == IsDuplexCapable(p)
  {
    var d := p.driverName.value;
    forall i | 0 <= i < |d| ensures Lower(Upper(d))[i] == Lower(d)[i] {
      LowerOfUpperChar(d[i]);
    }
    assert Lower(Upper(d)) == Lower(d);
  }

  /** The keys of the printer information. */
  const InfoKeys: set<string> := {"printer_ip", "printer_driver", "printer_location", "is_color", "is_duplex"}

  /** What `_get_printer_info` answers without a printer. */
  const NoPrinterInfo: map<string, Value> :=
    map["printer_ip" := Str(""), "printer_driver" := Str(""), "printer_location" := Str(""),
        "is_color" := Bool(false), "is_duplex" := Bool(false)]

  /** `_get_printer_info(printer_name)`: the first printer found tells its
      port, driver, location, colour and duplex; a failed or empty query
      yields the empty information. */
  function PrinterInfo(printerName: string, query: string -> Option<seq<WmiPrinter>>): (r: map<string, Value>)
    ensures r.Keys == InfoKeys
    ensures (query(printerName).None? || |query(printerName).value| == 0) ==> r == NoPrinterInfo
    ensures query(printerName).Some? && |query(printerName).value| > 0 ==>
              var p := query(printerName).value[0];
              && r["printer_ip"] == StrAttr(p.portName, "") && r["printer_driver"] == StrAttr(p.driverName, "")
              && r["printer_location"] == StrAttr(p.location, "")
              && r["is_color"] == Bool(IsColorPrinter(p)) && r["is_duplex"] == Bool(IsDuplexCapable(p))
  {
    match query(printerName)
    case Some(ps) =>
      if |ps| > 0 then
        var p := ps[0];
        map["printer_ip" := StrAttr(p.portName, ""), "printer_driver" := StrAttr(p.driverName, ""),
            "printer_location" := StrAttr(p.location, ""),
            "is_color" := Bool(IsColorPrinter(p)), "is_duplex" := Bool(IsDuplexCapable(p))]
      else NoPrinterInfo
    case None => NoPrinterInfo
  }

  /** The printer of a job: the text of `Name` before the first comma, or
      "Unknown Printer" when `Name` is missing, `None` or empty. */
  function PrinterName(job: WmiPrintJob): (r: string)
    ensures job.name.Given? && job.name.value != "" ==>
              && IsPrefix(r, job.name.value) && ',' !in r
              && (|r| == |job.name.value| || job.name.value[|r|] == ',')
    ensures job.name.Given? && job.name.value != "" && ',' !in job.name.value ==> r == job.name.value
    ensures !(job.name.Given? && job.name.value != "") ==> r == "Unknown Printer"
  {
    if job.name.Given? && job.name.value != "" then
      var n := job.name.value;
      SplitFirstIsPrefix(n, ',');
      Split(n, ',')[0]
    else "Unknown Printer"
  }

  /** The first piece of a split is the prefix of the string up to the
      first separator, and the whole string when it has none. */
  lemma SplitFirstIsPrefix(s: string, sep: char)
    ensures IsPrefix(Split(s, sep)[0], s)
    ensures |Split(s, sep)[0]| == |s| || s[|Split(s, sep)[0]|] == sep
    ensures sep !in s ==> Split(s, sep)[0] == s
  {
    if sep !in s {
      SplitNoSeparator(s, sep);
    }
    var r := Split(s, sep);
    if |r| > 1 {
      assert Join(r, sep) == r[0] + [sep] + Join(r[1..], sep);
    }
  }

  /** The keys of the job record before the printer information. */
  const JobKeys: set<string> :=
    {"job_id", "document_name", "printer_name", "username", "pages", "size_bytes", "status", "print_time", "submitted_time"}

  /** The job record `_process_print_job` builds from the event; `now` is
      the ISO time of the clock. */
  function JobData(job: WmiPrintJob, now: string): (r: map<string, Value>)
    ensures r.Keys == JobKeys
    ensures r["document_name"] == StrAttr(job.document, "Unknown Document")
    ensures r["username"] == StrAttr(job.owner, "Unknown User")
    ensures r["pages"] == IntAttr(job.totalPages, Int(0)) && r["size_bytes"] == IntAttr(job.size, Int(0))
    ensures r["printer_name"] == Str(PrinterName(job)) && r["print_time"] == Str(now)
    ensures r["job_id"] == IntAttr(job.jobId, Null) && r["status"] == StrAttr(job.status, "Unknown")
    ensures r["submitted_time"] == (if job.timeSubmitted.Given? then Str(job.timeSubmitted.value) else Null)
  {
    map["job_id" := IntAttr(job.jobId, Null),
        "document_name" := StrAttr(job.document, "Unknown Document"),
        "printer_name" := Str(PrinterName(job)),
        "username" := StrAttr(job.owner, "Unknown User"),
        "pages" := IntAttr(job.totalPages, Int(0)),
        "size_bytes" := IntAttr(job.size, Int(0)),
        "status" := StrAttr(job.status, "Unknown"),
        "print_time" := Str(now),
        "submitted_time" := if job.timeSubmitted.Given? then Str(job.timeSubmitted.value) else Null]
  }

  /** `_process_print_job`: the job record updated with the information of
      its printer; a printer-information key wins over a job key. */
  function ProcessPrintJob(job: WmiPrintJob, now: string, query: string -> Option<seq<WmiPrinter>>): (r: map<string, Value>)
    ensures r.Keys == JobKeys + InfoKeys
    ensures forall k :: k in InfoKeys ==> r[k] == PrinterInfo(PrinterName(job), query)[k]
    ensures forall k :: k in JobKeys && k !in InfoKeys ==> r[k] == JobData(job, now)[k]
  {
    JobData(job, now) + PrinterInfo(PrinterName(job), query)
  }

  /** An event with no attributes, on a machine whose printer query finds
      nothing, gives the documented defaults. */
  lemma BareJobDefaults(now: string, query: string -> Option<seq<WmiPrinter>>)
    requires query("Unknown Printer").None? || query("Unknown Printer") == Some([])
    ensures var r := ProcessPrintJob(WmiPrintJob(Omitted, Omitted, Omitted, Omitted, Omitted, Omitted, Omitted, Omitted), now, query);
      && r["document_name"] == Str("Unknown Document") && r["username"] == Str("Unknown User")
      && r["printer_name"] == Str("Unknown Printer") && r["pages"] == Int(0) && r["size_bytes"] == Int(0)
      && r["job_id"] == Null && r["status"] == Str("Unknown") && r["submitted_time"] == Null
      && r["printer_ip"] == Str("") && r["printer_driver"] == Str("") && r["printer_location"] == Str("")
      && r["is_color"] == Bool(false) && r["is_duplex"] == Bool(false)
  {
    var job := WmiPrintJob(Omitted, Omitted, Omitted, Omitted, Omitted, Omitted, Omitted, Omitted);
    assert PrinterName(job) == "Unknown Printer";
    assert PrinterInfo(PrinterName(job), query) == NoPrinterInfo;
    JobKeysOutsideInfo();
  }

  /** The job keys that the printer information does not override. */
  lemma JobKeysOutsideInfo()
    ensures "document_name" in JobKeys && "document_name" !in InfoKeys
    ensures "username" in JobKeys && "username" !in InfoKeys
    ensures "printer_name" in JobKeys && "printer_name" !in InfoKeys
    ensures "pages" in JobKeys && "pages" !in InfoKeys
    ensures "size_bytes" in JobKeys && "size_bytes" !in InfoKeys
    ensures "job_id" in JobKeys && "job_id" !in InfoKeys
    ensures "status" in JobKeys && "status" !in InfoKeys
    ensures "submitted_time" in JobKeys && "submitted_time" !in InfoKeys
  {
  }
}
