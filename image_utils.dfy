/**
 * lib/image-utils.ts: the fixed list of codes that have a picture, the
 * picture's path, and the membership test.
 */
module ImageUtils {
  import opened Wrappers
  import opened InvestorCatalog

  /** `AVAILABLE_IMAGES`: the codes that have a picture. */
  const AvailableImages: seq<string> := [
    "RALD", "RALV", "RATD", "RATV", "RCLD", "RCLV", "RCTD", "RCTV", "SALD", "SATD", "SATV"
  ]

  /** The codes of the type catalog that have no picture. */
  const CodesWithoutImage: set<string> := {"SALV", "SCTD", "SCTV", "SCLD", "SCLV"}

  /** `getTypeImageUrl`: "/image/<code>.png" for a code with a picture,
      None for any other string. */
  function GetTypeImageUrl(code: string): (url: Option<string>)
    ensures url.Some? <==> code in AvailableImages
    ensures url.Some? ==> ValidCode(code) && code in TypeCatalog
    ensures url.Some? ==> url.value == "/image/" + code + ".png"
  {
    if code in AvailableImages then
      AvailableImagesWellFormed();
      Some("/image/" + code + ".png")
    else
      None
  }

  /** `hasTypeImage`: whether a code has a picture. */
  function HasTypeImage(code: string): (b: bool)
    ensures b <==> GetTypeImageUrl(code).Some?
  {
    code in AvailableImages
  }

  /** Every listed code is a valid code and a catalog key, and no code is
      listed twice. */
  lemma AvailableImagesWellFormed()
    ensures |AvailableImages| == 11
    ensures forall i :: 0 <= i < |AvailableImages| ==>
      ValidCode(AvailableImages[i]) && AvailableImages[i] in TypeCatalog
    ensures forall i, j :: 0 <= i < j < |AvailableImages| ==> AvailableImages[i] != AvailableImages[j]
  {
  }

  /** A picture path determines its code: different codes get different
      paths, and the code is the path without "/image/" and ".png". */
  lemma UrlDeterminesCode(a: string, b: string)
    requires GetTypeImageUrl(a).Some? && GetTypeImageUrl(a) == GetTypeImageUrl(b)
    ensures a == b
    ensures var url := GetTypeImageUrl(a).value; url[7..|url| - 4] == a
  {
    var url := GetTypeImageUrl(a).value;
    assert url[7..|url| - 4] == a;
    assert url[7..|url| - 4] == b;
  }

  /** Of the sixteen codes, exactly SALV, SCTD, SCTV, SCLD and SCLV have no
      picture; for them the path is None. */
  lemma ImagesOfCatalogCodes(code: string)
    requires ValidCode(code)
    ensures HasTypeImage(code) <==> code !in CodesWithoutImage
    ensures code in CodesWithoutImage ==> GetTypeImageUrl(code) == None
  {
    assert code == [code[0], code[1], code[2], code[3]];
  }
}
