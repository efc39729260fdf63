/** The web UI's display helpers: text truncation and the badge colours of asset
    types and classifications. */
module UiUtils {
  import opened Text

  /** `s.slice(0, end)`: a negative end counts from the back, and the end is
      clamped to the string. */
  function SliceTo(s: string, end: int): (r: string)
    ensures 0 <= end <= |s| ==> r == s[..end]
    ensures |r| <= |s| && r == s[..|r|]
  {
    if end < 0 then (if |s| + end < 0 then [] else s[..|s| + end])
    else if end > |s| then s
    else s[..end]
  }

  /** `truncateText(text, maxLength)`. */
  function TruncateText(text: string, maxLength: int): (r: string)
    ensures |text| <= maxLength ==> r == text
    ensures 0 <= maxLength < |text| ==> r == text[..maxLength] + "..." && |r| == maxLength + 3
    ensures r == text || (|r| >= 3 && r[|r| - 3..] == "..." && StartsWith(text, r[..|r| - 3]))
  {
    if |text| <= maxLength then text
    else
      var kept := SliceTo(text, maxLength);
      assert (kept + "...")[..|kept|] == kept;
      kept + "..."
  }

  /** Truncating an already truncated text changes nothing: its first maxLength
      characters are the same, and the ellipsis comes back. */
  lemma TruncateIdempotent(text: string, maxLength: nat)
    ensures TruncateText(TruncateText(text, maxLength), maxLength) == TruncateText(text, maxLength)
  {
    if |text| > maxLength {
      var once := TruncateText(text, maxLength);
      assert once[..maxLength] == text[..maxLength];
    }
  }

  /** A negative maximum cuts from the end of the text. */
  lemma NegativeMaxCutsFromEnd(text: string, k: int)
    requires 0 < k <= |text|
    ensures TruncateText(text, -k) == text[..|text| - k] + "..."
  {
  }

  const Gray: string := "bg-gray-100 text-gray-800"

  const AssetTypes: seq<string> := ["TABLE", "VIEW", "COLUMN", "REPORT"]

  /** `getAssetTypeColor(type)`. */
  function AssetTypeColor(assetType: string): (r: string)
    ensures assetType !in AssetTypes ==> r == Gray
    ensures assetType in AssetTypes ==> r != Gray
  {
    match assetType
    case "TABLE" => "bg-blue-100 text-blue-800"
    case "VIEW" => "bg-green-100 text-green-800"
    case "COLUMN" => "bg-purple-100 text-purple-800"
    case "REPORT" => "bg-orange-100 text-orange-800"
    case _ => Gray
  }

  /** The four asset types get four different colours. */
  lemma AssetTypeColorsDistinct(a: string, b: string)
    requires a in AssetTypes && b in AssetTypes && a != b
    ensures AssetTypeColor(a) != AssetTypeColor(b)
  {
  }

  const Classifications: seq<string> := ["PII", "PHI", "FINANCIAL", "CONFIDENTIAL", "PUBLIC"]

  /** `getClassificationColor(classification)`. */
  function ClassificationColor(classification: string): (r: string)
    ensures classification !in Classifications ==> r == Gray
    ensures classification in Classifications ==> r != Gray
  {
    match classification
    case "PII" => "bg-red-100 text-red-800"
    case "PHI" => "bg-orange-100 text-orange-800"
    case "FINANCIAL" => "bg-yellow-100 text-yellow-800"
    case "CONFIDENTIAL" => "bg-purple-100 text-purple-800"
    case "PUBLIC" => "bg-green-100 text-green-800"
    case _ => Gray
  }

  /** The five classifications get five different colours. */
  lemma ClassificationColorsDistinct(a: string, b: string)
    requires a in Classifications && b in Classifications && a != b
    ensures ClassificationColor(a) != ClassificationColor(b)
  {
  }
}
