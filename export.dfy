/**
 * The name of the downloaded case file. The date is passed in as text
 * (year, month and day as eight digits); reading the clock is left out.
 */
module Export {

  /** The name with every space turned into an underscore, character for character. */
  function SpacesToUnderscores(name: string): (r: string)
    ensures |r| == |name|
    ensures forall i :: 0 <= i < |name| ==> r[i] == (if name[i] == ' ' then '_' else name[i])
  {
    if name == [] then []
    else [if name[0] == ' ' then '_' else name[0]] + SpacesToUnderscores(name[1..])
  }

  const Prefix := "caso_rif_"
  const Extension := ".json"

  /** The case file name: the fixed prefix, the patient's name without spaces, an underscore, the date and the extension. */
  function CaseFileName(name: string, date: string): (r: string)
    ensures |r| == |Prefix| + |name| + 1 + |date| + |Extension|
    ensures r[..|Prefix|] == Prefix
    ensures r[|r| - |Extension|..] == Extension
  {
    Prefix + SpacesToUnderscores(name) + DateSuffix(date)
  }

  /** What follows the name: an underscore, the date and the extension. */
  function DateSuffix(date: string): string
  {
    "_" + date + Extension
  }

  /** A name without spaces is kept as it is. */
  lemma {:induction false} SpacelessNameKept(name: string)
    requires ' ' !in name
    ensures SpacesToUnderscores(name) == name
  {
    if name != [] {
      SpacelessNameKept(name[1..]);
    }
  }

  /** The file name holds no space as long as the date holds none. */
  lemma FileNameHasNoSpace(name: string, date: string)
    requires ' ' !in date
    ensures ' ' !in CaseFileName(name, date)
  {
    var r := CaseFileName(name, date);
    var cleaned := SpacesToUnderscores(name);
    assert r == Prefix + cleaned + DateSuffix(date);
    assert ' ' !in cleaned;
  }

  /** The name part can be read back from the file name: it sits between the prefix and the underscore before the date. */
  lemma NamePartReadBack(name: string, date: string)
    ensures CaseFileName(name, date)[|Prefix|..|Prefix| + |name|] == SpacesToUnderscores(name)
  {
    var cleaned := SpacesToUnderscores(name);
    assert CaseFileName(name, date) == Prefix + cleaned + DateSuffix(date);
    MiddleOf(Prefix, cleaned, DateSuffix(date));
  }

  lemma MiddleOf(a: string, b: string, c: string)
    ensures (a + b + c)[|a|..|a| + |b|] == b
  {
  }
}
