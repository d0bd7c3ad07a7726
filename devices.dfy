/**
 * The device list page (app/devices/list/page.tsx): two constant device
 * lists, a tab choosing which one is searched, and the summary counts.
 */
module Devices {

  import Text
  import Lists

  datatype Device = Device(
    id: string,
    name: string,
    model: string,
    ipAddress: string,
    port: string,
    deviceType: string,
    status: string,
    isDefault: bool,
    lastUsed: string)

  const Printers: seq<Device> := [
    Device("1", "Reception Printer", "Epson TM-T20X", "192.168.1.101", "9100", "Thermal", "online", true, "2023-11-15 14:32"),
    Device("2", "Kitchen Printer", "Epson TM-T88VI", "192.168.1.102", "9100", "Thermal", "online", false, "2023-11-15 14:30"),
    Device("3", "Bar Printer", "Epson TM-T20III", "192.168.1.103", "9100", "Thermal", "offline", false, "2023-11-14 21:45"),
    Device("4", "Office Printer", "HP LaserJet Pro M404dn", "192.168.1.104", "9100", "Laser", "online", false, "2023-11-15 10:15")
  ]

  const PaymentTerminals: seq<Device> := [
    Device("1", "Front Desk Terminal", "Square Terminal", "192.168.1.201", "443", "Payment", "online", true, "2023-11-15 14:35"),
    Device("2", "Mobile Terminal", "Square Reader", "Bluetooth", "-", "Payment", "offline", false, "2023-11-14 18:22")
  ]

  /** The tab the page opens on. */
  const PrintersTab: string := "printers"

  /** `currentDevices`: the printers on the printers tab, the payment terminals on every other tab. */
  function CurrentDevices(activeTab: string): (r: seq<Device>)
    ensures activeTab == PrintersTab ==> r == Printers
    ensures activeTab != PrintersTab ==> r == PaymentTerminals
  {
    if activeTab == PrintersTab then Printers else PaymentTerminals
  }

  predicate SearchMatches(d: Device, term: string)
  {
    Text.ContainsIgnoringCase(d.name, term)
    || Text.ContainsIgnoringCase(d.model, term)
    || Text.ContainsIgnoringCase(d.ipAddress, term)
  }

  function MatchesTerm(term: string): Device -> bool
  {
    d => SearchMatches(d, term)
  }

  /** `filteredDevices`: the current tab's devices that match the search, in their order. */
  function FilteredDevices(activeTab: string, term: string): (r: seq<Device>)
    ensures forall d :: d in r <==> d in CurrentDevices(activeTab) && SearchMatches(d, term)
    ensures Lists.IsSubsequence(r, CurrentDevices(activeTab))
  {
    Lists.FilterIsSubsequence(CurrentDevices(activeTab), MatchesTerm(term));
    Lists.Filter(CurrentDevices(activeTab), MatchesTerm(term))
  }

  /** An empty search shows the tab's whole list. */
  lemma EmptySearchShowsAll(activeTab: string)
    ensures FilteredDevices(activeTab, "") == CurrentDevices(activeTab)
  {
    forall d | d in CurrentDevices(activeTab) ensures SearchMatches(d, "") {
      Text.ContainsIgnoringCaseEmpty(d.name);
    }
    Lists.FilterAll(CurrentDevices(activeTab), MatchesTerm(""));
  }

  /** The rows of the printers table: the search applies to it. */
  function PrinterRows(term: string): (r: seq<Device>)
    ensures Lists.IsSubsequence(r, Printers)
    ensures forall d :: d in r <==> d in Printers && SearchMatches(d, term)
  {
    FilteredDevices(PrintersTab, term)
  }

  /** The rows of the payment table: every terminal, whatever the search. */
  function PaymentRows(term: string): (r: seq<Device>)
    ensures r == PaymentTerminals
  {
    PaymentTerminals
  }

  /** The search narrows the printers table but never the payment table. */
  lemma SearchNarrowsOnlyPrinters(term: string)
    ensures |PrinterRows(term)| <= |Printers|
    ensures PaymentRows(term) == PaymentTerminals
    ensures PrinterRows("") == Printers
  {
    EmptySearchShowsAll(PrintersTab);
  }

  predicate IsOnline(d: Device) { d.status == "online" }

  /** `totalDevices` counts both lists; `onlineDevices` counts the online ones among them. */
  function TotalDevices(): (n: nat)
    ensures n == |Printers| + |PaymentTerminals|
  {
    |Printers + PaymentTerminals|
  }

  function OnlineDevices(): (n: nat)
    ensures n <= TotalDevices()
  {
    Lists.Count(Printers + PaymentTerminals, IsOnline)
  }

  lemma OnlinePrinters()
    ensures Lists.Filter(Printers, IsOnline) == [Printers[0], Printers[1], Printers[3]]
  {
    var s := Printers;
    assert Lists.Filter(s[3..], IsOnline) == [s[3]];
    assert Lists.Filter(s[2..], IsOnline) == [s[3]];
    assert Lists.Filter(s[1..], IsOnline) == [s[1], s[3]];
  }

  lemma OnlineTerminals()
    ensures Lists.Filter(PaymentTerminals, IsOnline) == [PaymentTerminals[0]]
  {
    var s := PaymentTerminals;
    assert Lists.Filter(s[1..], IsOnline) == [];
  }

  lemma DeviceCounts()
    ensures TotalDevices() == 6
    ensures OnlineDevices() == 4
  {
    OnlinePrinters();
    OnlineTerminals();
    Lists.FilterAppend(Printers, PaymentTerminals, IsOnline);
  }
}
