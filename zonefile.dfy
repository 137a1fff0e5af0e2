/**
 * The text of one zone file (`generate_zonefile`): a DNS master file in the
 * format of section 5 of RFC 1035, opened by the `$TTL` directive of section 4
 * of RFC 2308, naming the zone's name server and `hosts` address records.
 */
module ZoneFile {
  import opened Wrappers
  import opened Numerals
  import opened Planner
  import opened Errors
  import opened Text

  /** Default TTL of the zone, in seconds (`DEFAULT_TTL`). */
  const DefaultTtl: nat := 300
  /** SOA minimum field, in seconds (`SOA_MINIMUM`). */
  const SoaMinimum: nat := 300

  function TtlLine(): string {
    "$TTL " + Decimal(DefaultTtl)
  }

  /** SOA record: serial 2023100702, refresh 3600, retry 900, expire 604800. */
  function SoaLine(zonename: string): string {
    zonename + " IN SOA ns." + zonename + " hostmaster." + zonename
    + " 2023100702 3600 900 604800 " + Decimal(SoaMinimum)
  }

  function NsLine(zonename: string): string {
    "@  IN NS ns." + zonename
  }

  function NsAddressLine(ipaddress: string): string {
    "ns IN A " + ipaddress
  }

  /** Address record of host `i`, its name `i` padded to width `w`. */
  function HostLine(i: nat, w: nat, ipaddress: string): string {
    Pad(i, w) + " IN A " + ipaddress
  }

  /** The first `n` host records: record `i` is host `i`'s, in ascending order. */
  function HostLines(ipaddress: string, w: nat, n: nat): (r: seq<string>)
    ensures |r| == n
  {
    seq(n, i requires 0 <= i < n => HostLine(i, w, ipaddress))
  }

  lemma HostLinesStep(ipaddress: string, w: nat, n: nat)
    ensures HostLines(ipaddress, w, n + 1) == HostLines(ipaddress, w, n) + [HostLine(n, w, ipaddress)]
  {
  }

  function Header(zonename: string, ipaddress: string): seq<string> {
    [TtlLine(), SoaLine(zonename), NsLine(zonename), NsAddressLine(ipaddress)]
  }

  /** The record lines of the zone file, host names `ceil(log10(hosts))` wide. */
  function ZoneFileLines(zonename: string, ipaddress: string, hosts: int): seq<string>
    requires hosts >= 1
  {
    Header(zonename, ipaddress) + HostLines(ipaddress, DigitWidth(hosts), hosts)
  }

  /**
   * The file content: the record lines and a final empty line, joined by
   * newlines, so the content is the joined records and one newline.
   */
  function ZoneFileText(zonename: string, ipaddress: string, hosts: int): (r: string)
    requires hosts >= 1
    ensures r == Join(ZoneFileLines(zonename, ipaddress, hosts), "\n") + "\n"
  {
    var lines := ZoneFileLines(zonename, ipaddress, hosts);
    JoinAppend(lines, [""], "\n");
    assert Join([""], "\n") == "";
    Join(lines + [""], "\n")
  }

  /**
   * Builds the content `generate_zonefile` hands to `write_text`: the four
   * header lines, one line per host in a loop, the empty last line, joined.
   * A host count `<= 0` makes `log10` raise before anything is written.
   */
  method BuildZoneFile(zonename: string, ipaddress: string, hosts: int)
    returns (r: Result<string, Error>)
    ensures hosts <= 0 ==> r == Failure(MathDomainError)
    ensures hosts >= 1 ==> r == Success(ZoneFileText(zonename, ipaddress, hosts))
  {
    var lines := [];
    lines := lines + [TtlLine()];
    lines := lines + [SoaLine(zonename)];
    lines := lines + [NsLine(zonename)];
    lines := lines + [NsAddressLine(ipaddress)];
    var digit := CeilLog10(hosts);
    if digit.Failure? {
      return Failure(digit.error);
    }
    var hostnameDigit := digit.value;
    var i := 0;
    while i < hosts
      invariant 0 <= i <= hosts
      invariant hostnameDigit == DigitWidth(hosts)
      invariant lines == Header(zonename, ipaddress) + HostLines(ipaddress, hostnameDigit, i)
    {
      lines := lines + [HostLine(i, hostnameDigit, ipaddress)];
      HostLinesStep(ipaddress, hostnameDigit, i);
      i := i + 1;
    }
    lines := lines + [""];
    r := Success(Join(lines, "\n"));
  }

  /**
   * Line layout of the zone file: `$TTL 300`, the SOA, NS and name-server A
   * records, then host `i`'s A record on line `4 + i`: `4 + hosts` records.
   */
  lemma ZoneFileRecords(zonename: string, ipaddress: string, hosts: int)
    requires hosts >= 1
    ensures |ZoneFileLines(zonename, ipaddress, hosts)| == 4 + hosts
    ensures ZoneFileLines(zonename, ipaddress, hosts)[0] == "$TTL 300"
    ensures ZoneFileLines(zonename, ipaddress, hosts)[1]
         == zonename + " IN SOA ns." + zonename + " hostmaster." + zonename + " 2023100702 3600 900 604800 300"
    ensures ZoneFileLines(zonename, ipaddress, hosts)[2] == "@  IN NS ns." + zonename
    ensures ZoneFileLines(zonename, ipaddress, hosts)[3] == "ns IN A " + ipaddress
    ensures forall i :: 0 <= i < hosts ==>
      ZoneFileLines(zonename, ipaddress, hosts)[4 + i] == Pad(i, DigitWidth(hosts)) + " IN A " + ipaddress
  {
  }

  /**
   * `split("\n")` of the zone file gives back its record lines and the empty
   * piece after the final newline, when no name or address holds a newline.
   */
  lemma ZoneFileSplit(zonename: string, ipaddress: string, hosts: int)
    requires hosts >= 1 && NoNewline(zonename) && NoNewline(ipaddress)
    ensures Lines(ZoneFileText(zonename, ipaddress, hosts)) == ZoneFileLines(zonename, ipaddress, hosts) + [""]
  {
    var w := DigitWidth(hosts);
    var header, records := Header(zonename, ipaddress), HostLines(ipaddress, w, hosts);
    HeaderHasNoNewline(zonename, ipaddress);
    forall k | 0 <= k < hosts ensures NoNewline(records[k]) {
      LabelHasNoNewline(k, w);
    }
    var lines := header + records + [""];
    assert forall k :: 0 <= k < |lines| ==> NoNewline(lines[k]) by {
      forall k | 0 <= k < |lines| ensures NoNewline(lines[k]) {
        if k < 4 {
          assert lines[k] == header[k];
        } else if k < 4 + hosts {
          assert lines[k] == records[k - 4];
        }
      }
    }
    LinesOfJoin(lines);
  }

  lemma HeaderHasNoNewline(zonename: string, ipaddress: string)
    requires NoNewline(zonename) && NoNewline(ipaddress)
    ensures forall k :: 0 <= k < 4 ==> NoNewline(Header(zonename, ipaddress)[k])
  {
    DigitsHaveNoNewline(Decimal(DefaultTtl));
    SoaHasNoNewline(zonename);
  }

  lemma SoaHasNoNewline(zonename: string)
    requires NoNewline(zonename)
    ensures NoNewline(SoaLine(zonename))
  {
    DigitsHaveNoNewline(Decimal(SoaMinimum));
  }

  lemma DigitsHaveNoNewline(s: string)
    requires AllDigits(s)
    ensures NoNewline(s)
  {
  }

  lemma LabelHasNoNewline(i: nat, w: nat)
    ensures NoNewline(Pad(i, w))
  {
  }

  /** The file ends with exactly one newline: its last line is not empty. */
  lemma ZoneFileEnding(zonename: string, ipaddress: string, hosts: int)
    requires hosts >= 1 && NoNewline(ipaddress)
    ensures var text := ZoneFileText(zonename, ipaddress, hosts);
      |text| >= 2 && text[|text| - 1] == '\n' && text[|text| - 2] != '\n'
  {
    LastRecord(zonename, ipaddress, hosts);
    HostLineEnding(hosts - 1, DigitWidth(hosts), ipaddress);
    JoinTrailingNewline(ZoneFileLines(zonename, ipaddress, hosts));
  }

  /** The last record of the zone file is the last host's. */
  lemma LastRecord(zonename: string, ipaddress: string, hosts: int)
    requires hosts >= 1
    ensures var lines := ZoneFileLines(zonename, ipaddress, hosts);
      lines[|lines| - 1] == HostLine(hosts - 1, DigitWidth(hosts), ipaddress)
  {
  }

  /** A host record ends with the last character of the address, or a space. */
  lemma HostLineEnding(i: nat, w: nat, ipaddress: string)
    requires NoNewline(ipaddress)
    ensures var line := HostLine(i, w, ipaddress); |line| >= 1 && line[|line| - 1] != '\n'
  {
    if ipaddress != [] {
      assert ipaddress[|ipaddress| - 1] in ipaddress;
    }
  }
}
