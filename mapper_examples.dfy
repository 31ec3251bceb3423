/**
 * `wxs_to_dict` (harvest_helpers.py:195-395) on the layer of the
 * `parse_name` doctest "Graticule (REF-001)" (lines 96-105).
 */
module MapperExamples {
  import opened Wrappers
  import opened Text
  import opened Timestamps
  import opened NameParser
  import opened ParseNameExamples
  import opened PackageMapper

  lemma GraticuleOrgKey()
    ensures OrgKey("ref-001") == "ref"
  {
    var slug := "ref-001";
    OrgKeyIsPrefix(slug);
    assert slug[3] == '-' && slug[..3] == "ref";
  }

  lemma GraticuleUpper()
    ensures Upper("ref-001") == "REF-001"
  {
  }

  lemma WmsLower()
    ensures Lower("WMS") == "wms" && Lower("WMS") + "_layer" == "wms_layer"
  {
  }

  /** "Graticule (REF-001)" parses to the slug "ref-001", so it is mappable without a matching organisation. */
  lemma GraticuleParsed(layer: Layer, orgDict: map<string, Organisation>, now: DateTime)
    requires layer.title == "Graticule (REF-001)" && (layer.name.Some? || ':' in layer.id)
    requires "ref" !in orgDict && IsFormattable(now)
    ensures Mappable(layer, orgDict)
    ensures SlugOf(layer.title) == Some("ref-001") && TitleOf(layer.title) == "Graticule"
    ensures PublishedOf(layer.title, now) == FormatIso(now)
  {
    GraticuleUndated(now);
    GraticuleOrgKey();
  }

  /**
   * "Graticule (REF-001)" as a WMS layer with no matching organisation and
   * no data dictionary: it is mapped with the title "Graticule", the clock's
   * date, the fallback owner, an empty contact, and one WMS endpoint at
   * `wxsUrl` for layer REF-001.
   */
  lemma GraticuleMapped(layer: Layer, wxsUrl: string, orgDict: map<string, Organisation>,
                        groupDict: map<string, Group>, pdfDict: map<string, string>,
                        fallbackOrgId: Option<string>, slugify: string -> string, now: DateTime)
    requires layer.title == "Graticule (REF-001)" && (layer.name.Some? || ':' in layer.id)
    requires "ref" !in orgDict && "ref-001" !in pdfDict && IsFormattable(now)
    ensures Mappable(layer, orgDict)
    ensures var d := Mapped(layer, wxsUrl, orgDict, groupDict, pdfDict, fallbackOrgId, "WMS", slugify, now);
      && d.Some? && d.value.title == "Graticule" && d.value.publishedOn == FormatIso(now)
      && d.value.ownerOrg == fallbackOrgId && d.value.author == "" && d.value.authorEmail == ""
      && |d.value.resources| == 1 && d.value.resources[0].url == wxsUrl
      && d.value.resources[0].fields["format"] == "wms"
      && d.value.resources[0].fields[Lower("WMS") + "_layer"] == "REF-001"
  {
    GraticuleParsed(layer, orgDict, now);
    GraticuleOrgKey();
    GraticuleUpper();
    WmsLower();
    MappedWithoutOrgOrPdf(layer, wxsUrl, orgDict, groupDict, pdfDict, fallbackOrgId, "WMS", slugify, now);
    EndpointFields("Graticule", "REF-001", wxsUrl, "WMS");
  }
}
