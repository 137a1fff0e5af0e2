/**
 * The NSD configuration stanza of one zone (`generate_zone_config`): a
 * `zone:` clause with its `name:` and `zonefile:` attributes, indented by
 * eight spaces, and a final empty line.
 */
module ZoneConfig {
  import opened Text

  function StanzaLines(zonename: string, zonefile: string): seq<string> {
    ["zone:", "        name: " + zonename, "        zonefile: " + zonefile, ""]
  }

  /** `"\n".join` of the stanza's four lines. */
  function Stanza(zonename: string, zonefile: string): string {
    Join(StanzaLines(zonename, zonefile), "\n")
  }

  /** Byte layout of a stanza: three lines, each closed by a newline. */
  lemma StanzaLayout(zonename: string, zonefile: string)
    ensures Stanza(zonename, zonefile)
         == "zone:" + "\n" + "        name: " + zonename + "\n" + "        zonefile: " + zonefile + "\n"
  {
    Join4("zone:", "        name: " + zonename, "        zonefile: " + zonefile, "", "\n");
  }

  /** `sep.join` of four strings. */
  lemma Join4(a: string, b: string, c: string, d: string, sep: string)
    ensures Join([a, b, c, d], sep) == a + sep + b + sep + c + sep + d
  {
    assert [c, d][1..] == [d];
    assert Join([c, d], sep) == c + sep + d;
    assert [b, c, d][1..] == [c, d];
    assert Join([b, c, d], sep) == b + sep + (c + sep + d);
    assert [a, b, c, d][1..] == [b, c, d];
  }
}
