/** The request validator of app/models.py. */
module Models {
  import opened Basics
  import Text

  /** The sectors the validator lists as supported; the list is consulted but never enforced. */
  const SupportedSectors: seq<string> := [
    "pharmaceuticals", "technology", "banking", "automotive",
    "agriculture", "energy", "steel", "cement", "fmcg", "telecom",
    "textiles", "aviation", "real_estate", "infrastructure",
    "chemicals", "mining", "oil_gas", "power", "retail",
    "media", "hospitality", "defense"
  ]

  const EmptySectorMessage := "Sector name cannot be empty"

  /** `SectorRequest.validate_sector`: reject an empty or whitespace-only name, otherwise
      return it stripped, with its case kept; membership in `SupportedSectors` plays no part. */
  function ValidateSector(v: string): (r: Result<string, string>)
    ensures r.Err? <==> Text.AllSpace(v)
    ensures r.Err? ==> r.error == EmptySectorMessage
    ensures r.Ok? ==> r.value == Text.Strip(v) && r.value != ""
    ensures r.Ok? ==> !Text.IsSpace(r.value[0]) && !Text.IsSpace(r.value[|r.value| - 1])
  {
    if v == "" || |Text.Strip(v)| == 0 then Err(EmptySectorMessage) else Ok(Text.Strip(v))
  }

  /** An accepted name validates again to itself. */
  lemma ValidateSectorIdempotent(v: string)
    requires ValidateSector(v).Ok?
    ensures ValidateSector(ValidateSector(v).value) == ValidateSector(v)
  {
    Text.StripIdempotent(v);
  }

  /** A name outside the supported list is accepted all the same. */
  lemma UnlistedSectorAccepted(v: string)
    requires !Text.AllSpace(v)
    requires Text.Lower(Text.Strip(v)) !in SupportedSectors
    ensures ValidateSector(v) == Ok(Text.Strip(v))
  {
  }
}
