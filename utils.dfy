/** The banner text printed at start-up (src/utils/mod.rs). The crate metadata
    that Cargo compiles in (`CARGO_PKG_*`) is passed in. */
module Utils {
  import opened Common

  /** `get_ascii_logo`. */
  const ASCII_LOGO: string :=
    "\n"
    + "                             \n"
    + "    _____         _       _____ \n"
    + "   |  _  |___ ___| |_ ___|_   _|\n"
    + "   |   __|  _| . |  _| . | | |  \n"
    + "   |__|  |_| |___|_| |___| |_|  \n"
    + "                                \n"
    + "   "

  /** The logo is eight lines, the first empty, the last three spaces. */
  function GetAsciiLogo(): (r: string)
    ensures |r| == 199
    ensures r[0] == '\n' && r[196..] == "   "
  {
    ASCII_LOGO
  }

  const SEPARATOR_WIDTH: nat := 60
  const KEY_WIDTH: nat := 16

  /** `"=".repeat(60)`. */
  function Separator(): string
  {
    Repeat('=', SEPARATOR_WIDTH)
  }

  /** `format!("{:<16}", key)`: left-aligned, padded with spaces to at least 16
      columns, never cut. */
  function PadRight(s: string, width: nat): (r: string)
    ensures |r| == if |s| >= width then |s| else width
    ensures r[..|s|] == s
    ensures forall i :: |s| <= i < |r| ==> r[i] == ' '
  {
    s + Repeat(' ', if |s| >= width then 0 else width - |s|)
  }

  /** One entry line: `format!("{:<16}{}\n", key, value)`. */
  function EntryLine(key: string, value: string): string
  {
    PadRight(key, KEY_WIDTH) + value + "\n"
  }

  /** A key of at most 16 characters fills exactly the first 16 columns, the value
      follows, and the line ends with its only newline when the value has none. */
  lemma EntryLineLayout(key: string, value: string)
    requires |key| <= KEY_WIDTH
    ensures |EntryLine(key, value)| == KEY_WIDTH + |value| + 1
    ensures EntryLine(key, value)[..|key|] == key
    ensures forall i :: |key| <= i < KEY_WIDTH ==> EntryLine(key, value)[i] == ' '
    ensures EntryLine(key, value)[KEY_WIDTH..KEY_WIDTH + |value|] == value
    ensures EntryLine(key, value)[KEY_WIDTH + |value|] == '\n'
  {
    var line := EntryLine(key, value);
    assert line == PadRight(key, KEY_WIDTH) + (value + "\n");
    assert line[..|key|] == PadRight(key, KEY_WIDTH)[..|key|];
  }

  /** The entries of the banner, in their fixed order. */
  function MetadataEntries(name: string, version: string, authors: string, description: string, repository: string): seq<(string, string)>
  {
    [("Application", name), ("Version", version), ("Authors", authors), ("Description", description), ("Github", repository)]
  }

  /** The entry lines of `entries`, in order. */
  function Lines(entries: seq<(string, string)>): string
    decreases |entries|
  {
    if entries == [] then ""
    else Lines(entries[..|entries| - 1]) + EntryLine(entries[|entries| - 1].0, entries[|entries| - 1].1)
  }

  /** The banner for `entries`: separator, newline, entry lines, separator. */
  function MetadataText(entries: seq<(string, string)>): string
  {
    Separator() + "\n" + Lines(entries) + Separator()
  }

  /** The banner opens with 60 '=' and a newline and closes with 60 '=' and no
      newline after them. */
  lemma MetadataFraming(entries: seq<(string, string)>)
    ensures |MetadataText(entries)| >= 2 * SEPARATOR_WIDTH + 1
    ensures MetadataText(entries)[..SEPARATOR_WIDTH] == Repeat('=', SEPARATOR_WIDTH)
    ensures MetadataText(entries)[SEPARATOR_WIDTH] == '\n'
    ensures MetadataText(entries)[|MetadataText(entries)| - SEPARATOR_WIDTH..] == Repeat('=', SEPARATOR_WIDTH)
    ensures MetadataText(entries)[|MetadataText(entries)| - 1] == '='
  {
    var t := MetadataText(entries);
    assert t == Separator() + ("\n" + Lines(entries) + Separator());
    assert t[..SEPARATOR_WIDTH] == Separator();
    assert t == (Separator() + "\n" + Lines(entries)) + Separator();
  }

  /** Appending an entry appends its line. */
  lemma LinesSnoc(entries: seq<(string, string)>, entry: (string, string))
    ensures Lines(entries + [entry]) == Lines(entries) + EntryLine(entry.0, entry.1)
  {
    assert (entries + [entry])[..|entries|] == entries;
  }

  /** The lines of five entries, one after another. */
  lemma LinesOfFive(a: (string, string), v: (string, string), u: (string, string), d: (string, string), g: (string, string))
    ensures Lines([a, v, u, d, g])
      == EntryLine(a.0, a.1) + EntryLine(v.0, v.1) + EntryLine(u.0, u.1) + EntryLine(d.0, d.1) + EntryLine(g.0, g.1)
  {
    LinesSnoc([], a);
    assert [] + [a] == [a];
    LinesSnoc([a], v);
    assert [a] + [v] == [a, v];
    LinesSnoc([a, v], u);
    assert [a, v] + [u] == [a, v, u];
    LinesSnoc([a, v, u], d);
    assert [a, v, u] + [d] == [a, v, u, d];
    LinesSnoc([a, v, u, d], g);
    assert [a, v, u, d] + [g] == [a, v, u, d, g];
  }

  /** The entry lines come in the order Application, Version, Authors, Description,
      Github. */
  lemma MetadataOrder(name: string, version: string, authors: string, description: string, repository: string)
    ensures Lines(MetadataEntries(name, version, authors, description, repository))
      == EntryLine("Application", name) + EntryLine("Version", version) + EntryLine("Authors", authors)
         + EntryLine("Description", description) + EntryLine("Github", repository)
  {
    LinesOfFive(("Application", name), ("Version", version), ("Authors", authors), ("Description", description), ("Github", repository));
  }

  /** Each key is padded to 16 columns with spaces. */
  lemma KeysPadded()
    ensures PadRight("Application", KEY_WIDTH) == "Application     "
    ensures PadRight("Version", KEY_WIDTH) == "Version         "
    ensures PadRight("Authors", KEY_WIDTH) == "Authors         "
    ensures PadRight("Description", KEY_WIDTH) == "Description     "
    ensures PadRight("Github", KEY_WIDTH) == "Github          "
  {
  }

  /** `get_protot_metadata`: builds the banner one push at a time. */
  method GetProtoTMetadata(name: string, version: string, authors: string, description: string, repository: string)
    returns (formatted: string)
    ensures formatted == MetadataText(MetadataEntries(name, version, authors, description, repository))
  {
    var metadata := MetadataEntries(name, version, authors, description, repository);
    var separator := Repeat('=', SEPARATOR_WIDTH);
    formatted := "";
    formatted := formatted + separator;
    formatted := formatted + "\n";
    var i := 0;
    while i < |metadata|
      invariant 0 <= i <= |metadata|
      invariant formatted == Separator() + "\n" + Lines(metadata[..i])
    {
      var (key, value) := metadata[i];
      formatted := formatted + EntryLine(key, value);
      assert metadata[..i + 1][..i] == metadata[..i];
      i := i + 1;
    }
    assert metadata[..i] == metadata;
    formatted := formatted + separator;
  }
}
