# nsdgenzone in Dafny

A model of `nsdgenzone.py`, a script that generates test zones for the NSD
authoritative DNS server, with proofs about what it produces. One run
`generate(zones, hosts, domainname, ipaddress, configdir, zonesdir)` does the following:

- It makes the domain name absolute.
- It sizes the zone labels to `ceil(log10(zones))` digits.
- It shards the zones into a tree of two-digit directories, `floor((digits - 1) / 2)` levels deep.
- For each zone, in ascending index order, it:
  - creates the zone's shard directory;
  - writes a zone file holding a `$TTL` line, the SOA, NS and name-server A records, and one A record per host;
  - appends a `zone:` stanza to the configuration.
- Finally it writes the joined stanzas to `zones.conf` in the config directory.

Modules, one per concern of the script:

- `Errors`: the two Python exceptions a run can raise, `ValueError` from `log10` and `FileNotFoundError` from `write_text`.
- `Numerals`: `str(n)`, the zero padding `f"{n:0{w}}"` and the value of a digit string.
- `Planner`: the exact integer `ceil(log10(n))`, with the `ValueError` that `log10` raises for `n <= 0` as a `Failure`; the directory width; the shard depth.
- `Text`: `"\n".join`, its inverse view `str.split("\n")`, and lists of four-line blocks such as the stanzas.
- `ZoneFile`: `generate_zonefile`'s text. `BuildZoneFile` is the line-appending loop.
- `ZoneConfig`: `generate_zone_config`'s stanza.
- `Shard`: Python's clamping slice, and the directory segments the inner loop joins.
- `Generator`: the domain normalisation and the naming plan, plus these parts:
  - the `FileSystem` class: the set of existing directories, closed under parents, and the ordered log of `write_text` calls;
  - the methods `ShardDirectory`, `GenerateZonefile`, `GenerateZone` (one iteration of the zone loop), `GenerateZones` (the loop) and `Generate`;
  - the lemmas about names, directories, fan-out and the configuration file.

The methods are proved against specification functions of the run. `ZoneWrites` gives the zone files written. `DirsFor` gives the directories created. `Stanzas` and `ConfigText` give the configuration. Separate lemmas state what those functions guarantee.

## Model

| member | source | states |
|---|---|---|
| Numerals.Decimal | nsdgenzone.py:26 | `str(n)` is a non-empty digit string with no leading zero from 10 on |
| Numerals.PadRoundTrip | nsdgenzone.py:35 | `Pad(n, w)`, the padding `f"{n:0{w}}"`, is a digit string whose value is `n`, of length `max(w, len(str(n)))` |
| Numerals.PadWidth | nsdgenzone.py:70 | for a width `w >= 1` and `n < 10^w`, `Pad(n, w)` is exactly `w` digits wide |
| Numerals.DecimalLength | nsdgenzone.py:70 | for `k >= 1`, `str(n)` fits in `k` characters if and only if `n < 10^k` |
| Numerals.ValueOfSplit | nsdgenzone.py:73-76 | a label's value is its leading digits' value times `10^rest` plus the value of the rest |
| Numerals.TwoDigitStringsBound | nsdgenzone.py:64 | at most 100 distinct strings of two decimal digits exist |
| Planner.DigitWidth | nsdgenzone.py:63 | `ceil(log10(n))` is the least `d` with `n <= 10^d`, and `10^(d-1) < n`; it is 0 exactly for `n == 1` |
| Planner.DigitWidthLeast | nsdgenzone.py:63 | no width below `ceil(log10(n))` holds `n` |
| Planner.CeilLog10 | nsdgenzone.py:33 | fails with the math domain error exactly when `n <= 0`; otherwise gives the least sufficient width |
| Planner.Depth | nsdgenzone.py:65 | `floor((digit - 1) / 2)` is -1 for width 0; otherwise it leaves one or two label digits below the directory levels |
| Planner.DirDigitIsTwo | nsdgenzone.py:64 | `ceil(log10(MAX_FILE_IN_DIR))` is 2, and `10^2` is `MAX_FILE_IN_DIR` |
| Planner.IndexLabel | nsdgenzone.py:70 | the label of index `i < n` is a digit string of value `i`; it is exactly `ceil(log10(n))` wide for `n >= 2`, and `"0"` for `n == 1` |
| Planner.IndexLabelsDistinct | nsdgenzone.py:69-70 | distinct indices get distinct labels of one length |
| Text.LinesOfJoin | nsdgenzone.py:38 | splitting the newline-join of a non-empty list of newline-free lines at newlines gives the list back |
| Text.JoinAppend | nsdgenzone.py:87 | joining two non-empty lists is joining their joins with the separator |
| Text.JoinEndsWithLast | nsdgenzone.py:38 | a join ends with its last element |
| Text.JoinTrailingNewline | nsdgenzone.py:36-38 | joining lines and a final empty piece ends the text with exactly one newline when the last line does not end with one |
| ZoneConfig.StanzaLayout | nsdgenzone.py:41-48 | `Stanza`, the string `generate_zone_config` returns, is the `zone:`, `name:` and `zonefile:` lines (eight-space indent), each closed by a newline |
| ZoneFile.BuildZoneFile | nsdgenzone.py:25-38 | the loop builds exactly the zone text (header, host records in order, final empty line, joined); fails with the domain error for `hosts <= 0` |
| ZoneFile.ZoneFileRecords | nsdgenzone.py:26-35 | `4 + hosts` records: `$TTL 300`, the SOA with serial 2023100702 and timers 3600 900 604800 300, the NS, the `ns` A record, then host `i`'s A record on line `4 + i` |
| ZoneFile.ZoneFileSplit | nsdgenzone.py:36-38 | when the zone name and the address hold no newline, reading the file back line by line gives the records and one empty piece after the final newline |
| ZoneFile.ZoneFileEnding | nsdgenzone.py:36-38 | when the address holds no newline, the file ends with exactly one newline |
| ZoneFile.ZoneFileText | nsdgenzone.py:21-38 | the file text is the newline-join of the records followed by one newline, which the appended empty line produces |
| Shard.PySlice | nsdgenzone.py:75 | within bounds, Python's clamped slice is the plain slice |
| Shard.SegmentAt | nsdgenzone.py:73-76 | directory level `j` is the zone name slice `[j*w:(j+1)*w]` |
| Shard.SegmentsConcat | nsdgenzone.py:73-76 | the two-wide segments spell the zone name's first `2*depth` characters |
| Shard.SameSegments | nsdgenzone.py:73-76 | two names get the same segments if and only if they agree on their first `2*depth` characters |
| Generator.NormalizeDomain | nsdgenzone.py:60-61 | the domain ends with a dot, extends the input by at most that dot, and is unchanged if it had one |
| Generator.NormalizeIdempotent | nsdgenzone.py:60-61 | normalising twice is normalising once |
| Generator.ZoneName | nsdgenzone.py:70 | the zone name ends with a dot whenever the domain does, as it does after normalisation |
| Generator.ZoneFilePath | nsdgenzone.py:80 | the zone file sits directly in the zone's shard directory |
| Generator.ConfigPath | nsdgenzone.py:86 | `zones.conf` sits directly in the config directory |
| Generator.RenderNoNewline | nsdgenzone.py:46 | `str()` of a path whose base and segments hold no newline holds none, so the `zonefile:` line stays one line |
| Generator.Plan | nsdgenzone.py:60-65 | fails exactly for `zones <= 0`; otherwise label width `ceil(log10(zones))`, directory width 2, depth `floor((width-1)/2)`, absolute domain |
| Generator.LayoutOfPlanned | nsdgenzone.py:63-65 | a successful plan satisfies `Planned` for its zone count |
| Generator.AncestorsClosed | nsdgenzone.py:78 | the parents of a path's parents are among its parents, so `mkdir(parents=True)` keeps the tree closed |
| Generator.FileSystem.MakeDirs | nsdgenzone.py:78 | adds the directory and all its parents, nothing else; keeps every directory's parents present |
| Generator.FileSystem.WriteText | nsdgenzone.py:38 | appends one write of the given text to the given path when the path's directory exists; otherwise fails with `FileNotFoundError` and writes nothing; no directory changes |
| Generator.ShardDirectory | nsdgenzone.py:72-76 | the inner loop yields the zones directory joined with the `depth` slices of the zone name |
| Generator.GenerateZonefile | nsdgenzone.py:21-38 | fails with the domain error before writing when `hosts <= 0`; otherwise writes the zone text to the zone file, or fails with `FileNotFoundError` if its directory is missing; no directory changes |
| Generator.GenerateZone | nsdgenzone.py:70-84 | one loop iteration: adds the zone's directory chain, then appends its file write and its stanza; fails after the `mkdir` and before any write when `hosts <= 0` |
| Generator.GenerateZones | nsdgenzone.py:69-84 | for `hosts >= 1`: writes zone `k`'s file as the `k`-th write, creates exactly the shard directories of zones `0..zones-1`, accumulates the stanzas in order; otherwise zone 0's directory only, no write |
| Generator.Generate | nsdgenzone.py:51-87 | `generate` as a whole: nothing touched for `zones <= 0`; for `hosts <= 0`, zone 0's directory and no write; otherwise exactly the shard directories added and the zone files written in index order, then `zones.conf` holding the joined stanzas when the config directory exists, and `FileNotFoundError` with no `zones.conf` when it does not |
| Generator.ZoneNamesDistinct | nsdgenzone.py:69-80 | distinct zones get distinct zone names and distinct zone files, so no zone file is overwritten |
| Generator.ConfigPathDistinct | nsdgenzone.py:80-87 | no zone file is `zones.conf` |
| Generator.ZoneDirSegments | nsdgenzone.py:72-76 | one zone: no shard level; otherwise `depth` levels; level `j` is label digits `[2j:2j+2]`; together they spell the label's first `2*depth` digits, with at least one digit left over |
| Generator.SameDirectory | nsdgenzone.py:72-77 | two zones share a directory if and only if their labels agree on the first `2*depth` digits |
| Generator.LeafFanOut | nsdgenzone.py:63-80 | a shard directory holds at most `MAX_FILE_IN_DIR` zone files; for two or more zones, at most `10^(digit - 2*depth)` of them |
| Generator.LabelValueBounds | nsdgenzone.py:70-76 | the zones under one directory prefix lie in a window of `10^(digit - 2*depth)` indices |
| Generator.LeafWindow | nsdgenzone.py:72-80 | the zones sharing a directory number at most `10^(digit - 2*depth)` |
| Generator.InnerFanOut | nsdgenzone.py:64-76 | any directory of the shard tree has at most `MAX_FILE_IN_DIR` subdirectories |
| Generator.AncestorChild | nsdgenzone.py:78 | `mkdir(parents=True)` of a path creates `base/parent/c` exactly when the path continues `parent` with `c` |
| Generator.ChildOfRun | nsdgenzone.py:72-78 | the run creates `zonesdir/parent/c` if and only if `c` is the next shard segment of some zone below `parent` |
| Generator.DirectoryFanOut | nsdgenzone.py:64-78 | every directory has at most `MAX_FILE_IN_DIR` subdirectories among those the run creates |
| Generator.ConfigLinesAt | nsdgenzone.py:83-84 | lines `4k..4k+3` of the configuration are zone `k`'s stanza lines |
| Generator.ConfigJoin | nsdgenzone.py:83-87 | `zones.conf` is the newline-join of all stanza lines in zone order, so a blank line separates consecutive stanzas |
| Generator.ConfigLayout | nsdgenzone.py:83-87 | when the domain and zones directory hold no newline, reading `zones.conf` back line by line gives exactly the stanza lines of all zones in order (which `ConfigLinesAt` places at lines `4k..4k+3`) |

## Left out

- Command-line parsing and `main` (`nsdgenzone.py:90` onwards) are not modelled. The model starts at `generate` with its arguments as values.
- Planner.DigitWidth: gives the exact integer `ceil(log10(n))`. Python's floating-point `log10` is not modelled, so the model does not capture a case where rounding would give a different width.
- Two failures are modelled: the `ValueError` of `log10` for a count `<= 0`, and the `FileNotFoundError` of `write_text` when the file's directory is missing. The zone directories always exist by then. `zones.conf` fails this way when the config directory is missing. These filesystem errors are left out:
  - permission errors;
  - a full disk;
  - a regular file where a directory is expected, making `mkdir` raise;
  - `write_text` encoding errors.
- Generator.FileSystem.WriteText: requires a path with at least one segment. Every path the script writes ends in a file name.
- Files written are recorded in a write log; the model does not reread them. A write of the same path replaces it on disk. `ZoneNamesDistinct` and `ConfigPathDistinct` show that a run never writes one path twice.
- Paths are a base string plus segments, rendered with `/`. `pathlib`'s normalisation is not modelled:
  - a trailing `/` on a base;
  - `.` segments;
  - a `/` inside the domain name, which would make extra directory levels.
- The domain name and IP address are opaque strings; nothing validates them.
- A run with `zones == 1` follows the code:
  - the label width is `ceil(log10(1)) == 0`;
  - `f"{0:00}"` is `"0"`;
  - the depth is `floor(-1/2) == -1`, so there is no shard level.
- `hosts == 1` likewise names the single host `0`.
- A zone count of 4 labels zone 0 as `0`, not `00`, because `ceil(log10(4)) == 1`.
- Consecutive stanzas in `zones.conf` are separated by a blank line (`ConfigJoin`).
- Only the zone-and-hosts record template exists in this script. A second template with fixed records (TXT, MX, CNAME) and a query list is not part of this model.
