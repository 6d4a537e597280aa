/**
 * The active-network label of main.py: `get_active_network` scans the
 * interfaces in the order the host lists them and returns at the first one
 * that is up and looks like WiFi or Ethernet; for WiFi it asks
 * `get_wifi_ssid`, which scans the lines of `netsh wlan show interfaces`.
 */
module Network {
  import opened Wrappers
  import opened Text

  const UnknownNetwork: string := "Desconocida"

  /** One entry of `psutil.net_if_stats()`: the interface name and whether it is up. */
  datatype NetInterface = NetInterface(name: string, isUp: bool)

  datatype LinkKind = WiFi | Ethernet | Other

  /** How the scan classifies an interface; a down interface is always `Other`. */
  function Kind(iface: NetInterface): LinkKind {
    if !iface.isUp then Other
    else
      var lname := Lower(iface.name);
      if StartsWith(lname, "wi-fi") || StartsWith(lname, "wlan") then WiFi
      else if StartsWith(lname, "ethernet") then Ethernet
      else Other
  }

  /** What one output line contributes to the SSID scan. */
  datatype SsidLine = Skip | Found(ssid: string) | Abort

  /**
   * A line mentioning "SSID" but not "BSSID" carries the SSID after its first
   * colon, stripped; an empty value is skipped. Such a line without a colon
   * makes `split(":", 1)[1]` raise, which ends the whole lookup.
   */
  function ClassifyLine(line: string): (r: SsidLine)
    ensures !IsSsidLine(line) ==> r == Skip
    ensures r.Abort? <==> IsSsidLine(line) && ':' !in line
    ensures r.Found? ==> r.ssid != "" && !IsSpace(r.ssid[0]) && !IsSpace(r.ssid[|r.ssid| - 1])
  {
    if IsSsidLine(line) then
      var rest := AfterFirst(line, ':');
      if rest.None? then Abort
      else
        var ssid := Strip(rest.value);
        if ssid != "" then Found(ssid) else Skip
    else Skip
  }

  /**
   * On an SSID line whose first colon is at `i`, the value is the rest of the
   * line after it, stripped; the line is skipped when that is empty.
   */
  lemma ClassifyLineValue(line: string, i: int)
    requires IsSsidLine(line)
    requires 0 <= i < |line| && line[i] == ':' && ':' !in line[..i]
    ensures ClassifyLine(line) == if Strip(line[i + 1..]) == "" then Skip else Found(Strip(line[i + 1..]))
  {
    var rest := AfterFirst(line, ':');
    var j :| 0 <= j < |line| && line[j] == ':' && ':' !in line[..j] && rest.value == line[j + 1..];
    FirstOccurrenceUnique(line, ':', i, j);
  }

  /** `"SSID" in line and "BSSID" not in line`. */
  predicate IsSsidLine(line: string) {
    Contains(line, "SSID") && !Contains(line, "BSSID")
  }

  /** The line loop of `get_wifi_ssid`: the first decisive line decides. */
  function ScanSsid(lines: seq<string>): Option<string> {
    if lines == [] then None
    else
      var first := ClassifyLine(lines[0]);
      if first.Found? then Some(first.ssid)
      else if first.Abort? then None
      else ScanSsid(lines[1..])
  }

  /** The first line that is not skipped decides the SSID; lines after it are never read. */
  lemma {:induction false} ScanSsidFirstDecisive(lines: seq<string>, k: nat)
    requires k < |lines| && ClassifyLine(lines[k]) != Skip
    requires forall j :: 0 <= j < k ==> ClassifyLine(lines[j]) == Skip
    ensures ScanSsid(lines) == if ClassifyLine(lines[k]).Found? then Some(ClassifyLine(lines[k]).ssid) else None
  {
    if k > 0 {
      ScanSsidFirstDecisive(lines[1..], k - 1);
    }
  }

  /** A found SSID is the value of one of the lines. */
  lemma {:induction false} ScanSsidFromLine(lines: seq<string>)
    ensures ScanSsid(lines).Some? ==>
              exists k :: 0 <= k < |lines| && ClassifyLine(lines[k]) == Found(ScanSsid(lines).value)
  {
    if lines != [] {
      var first := ClassifyLine(lines[0]);
      if first.Skip? {
        var rest := lines[1..];
        ScanSsidFromLine(rest);
        if ScanSsid(rest).Some? {
          var k :| 0 <= k < |rest| && ClassifyLine(rest[k]) == Found(ScanSsid(rest).value);
          assert rest[k] == lines[k + 1];
        }
      }
    }
  }

  /** A found SSID is non-empty and has no whitespace at either end. */
  lemma {:induction false} ScanSsidTrimmed(lines: seq<string>)
    ensures var r := ScanSsid(lines);
            r.Some? ==> r.value != "" && !IsSpace(r.value[0]) && !IsSpace(r.value[|r.value| - 1])
  {
    ScanSsidFromLine(lines);
    if ScanSsid(lines).Some? {
      var k :| 0 <= k < |lines| && ClassifyLine(lines[k]) == Found(ScanSsid(lines).value);
      var line := ClassifyLine(lines[k]);
      assert line.Found? && line.ssid == ScanSsid(lines).value;
    }
  }

  /** With no decisive line at all the lookup finds nothing. */
  lemma {:induction false} ScanSsidAllSkipped(lines: seq<string>)
    requires forall j :: 0 <= j < |lines| ==> ClassifyLine(lines[j]) == Skip
    ensures ScanSsid(lines) == None
  {
    if lines != [] {
      ScanSsidAllSkipped(lines[1..]);
    }
  }

  /**
   * `get_wifi_ssid`: `netsh` is the command's output split into lines, or
   * `None` off Windows or when the command fails.
   */
  function WifiSsid(netsh: Option<seq<string>>): Option<string> {
    match netsh
    case None => None
    case Some(lines) => ScanSsid(lines)
  }

  /** The label returned for an interface the scan stops at. */
  function LinkLabel(iface: NetInterface, netsh: Option<seq<string>>): string {
    if Kind(iface) == WiFi then
      match WifiSsid(netsh)
      case Some(ssid) => "WiFi (" + ssid + ") - " + iface.name
      case None => "WiFi - " + iface.name
    else "Ethernet - " + iface.name
  }

  /**
   * `get_active_network`: the label of the first up WiFi or Ethernet
   * interface, or "Desconocida" exactly when there is none.
   */
  function ActiveNetwork(ifaces: seq<NetInterface>, netsh: Option<seq<string>>): (r: string)
    ensures r == UnknownNetwork <==> forall i :: 0 <= i < |ifaces| ==> Kind(ifaces[i]) == Other
  {
    if ifaces == [] then UnknownNetwork
    else if Kind(ifaces[0]) != Other then
      var r := LinkLabel(ifaces[0], netsh);
      assert r[0] != UnknownNetwork[0];
      r
    else
      var r := ActiveNetwork(ifaces[1..], netsh);
      assert forall i :: 1 <= i < |ifaces| ==> ifaces[i] == ifaces[1..][i - 1];
      r
  }

  /**
   * Down interfaces and up ones of another kind are skipped: the first up
   * WiFi or Ethernet interface gives the label.
   */
  lemma {:induction false} ActiveNetworkFirstMatch(ifaces: seq<NetInterface>, netsh: Option<seq<string>>, k: nat)
    requires k < |ifaces| && Kind(ifaces[k]) != Other
    requires forall j :: 0 <= j < k ==> Kind(ifaces[j]) == Other
    ensures ActiveNetwork(ifaces, netsh) == LinkLabel(ifaces[k], netsh)
  {
    if k > 0 {
      ActiveNetworkFirstMatch(ifaces[1..], netsh, k - 1);
    }
  }

  /** A WiFi label names the SSID exactly when the lookup found one. */
  lemma WifiLabelShowsSsid(iface: NetInterface, netsh: Option<seq<string>>)
    requires Kind(iface) == WiFi
    ensures WifiSsid(netsh).Some? ==> LinkLabel(iface, netsh) == "WiFi (" + WifiSsid(netsh).value + ") - " + iface.name
    ensures WifiSsid(netsh).None? ==> LinkLabel(iface, netsh) == "WiFi - " + iface.name
  {
  }
}
