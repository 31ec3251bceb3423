/**
 * `wxs_to_dict` (harvest_helpers.py:195-395): one WMS/WFS layer of the SLIP
 * service becomes a catalog package dictionary, or nothing when its title
 * carries no slug. The lookup tables, the fallback organisation, the clock
 * and the two external helpers (`slugify` and the bounding-box GeoJSON) are
 * parameters.
 */
module PackageMapper {
  import opened Wrappers
  import opened Text
  import opened Timestamps
  import opened NameParser
  import opened SlipNames
  import opened Records
  import opened Resources
  import opened Upsert

  /**
   * The parts of a service layer the mapping reads: `layer.name` (absent on
   * WFS layers), `layer.id`, `layer.title`, the parent layer's title when
   * there is a parent, and `bboxWGS84_to_gjMP(layer.boundingBoxWGS84)`,
   * whose JSON rendering is not part of this model.
   */
  datatype Layer = Layer(name: Option<string>, id: string, title: string,
                         parentTitle: Option<string>, spatial: string)

  /** One `{"key": ..., "value": ...}` entry of an organisation's `extras`. */
  datatype Extra = Extra(key: string, value: string)

  /** An organisation dictionary: its `id`, `title` and `extras`, each present or not. */
  datatype Organisation = Organisation(id: Option<string>, title: Option<string>, extras: Option<seq<Extra>>)

  /** A group dictionary: its `id` and `name`, each present or not. */
  datatype Group = Group(id: Option<string>, name: Option<string>)

  /** Python truthiness of an optional string: present and non-empty. */
  predicate Truthy(s: Option<string>) {
    s.Some? && s.value != ""
  }

  /** `ds_name.split("-")[0]`: the organisation key a slug starts with. */
  function OrgKey(slug: string): string {
    SplitOn(slug, '-')[0]
  }

  /** `org_dict.get(key, None)` */
  function OrgOf(orgDict: map<string, Organisation>, key: string): Option<Organisation> {
    if key in orgDict then Some(orgDict[key]) else None
  }

  /** The value of the first extra with key `key`, if there is one. */
  function FirstValue(extras: seq<Extra>, key: string): (v: Option<string>)
    ensures v.Some? <==> exists i :: 0 <= i < |extras| && extras[i].key == key
    ensures v.Some? ==> exists i :: 0 <= i < |extras| && extras[i].key == key && extras[i].value == v.value
  {
    if extras == [] then None
    else if extras[0].key == key then Some(extras[0].value)
    else
      var v := FirstValue(extras[1..], key);
      assert forall i :: 0 <= i < |extras| - 1 ==> extras[1..][i] == extras[i + 1];
      v
  }

  /** The organisation's extras, or none when it has no such key (lines 322-323). */
  function ExtrasOf(org: Option<Organisation>): seq<Extra> {
    if org.Some? && org.value.extras.Some? then org.value.extras.value else []
  }

  /**
   * Non-empty extras must hold both a "Contact" and a "Jurisdiction" entry:
   * lines 324-325 take the first of each and raise IndexError without one.
   */
  predicate ExtrasComplete(org: Option<Organisation>) {
    var extras := ExtrasOf(org);
    extras == [] || (FirstValue(extras, "Contact").Some? && FirstValue(extras, "Jurisdiction").Some?)
  }

  /**
   * The layers `wxs_to_dict` maps without raising: the title parses (see
   * `Parseable`); the layer has a name or an id with a colon for
   * `make_dataset_name` (line 282); and the organisation a slug selects has
   * usable extras.
   */
  predicate Mappable(layer: Layer, orgDict: map<string, Organisation>) {
    && Parseable(layer.title)
    && (layer.name.Some? || ':' in layer.id)
    && (SlugOf(layer.title).Some? ==> ExtrasComplete(OrgOf(orgDict, OrgKey(SlugOf(layer.title).value))))
  }

  // ---------------------------------------------------------------------------
  // Specification

  /** The owning organisation's id, else the fallback id (which may be `None`). */
  function OwnerOrg(org: Option<Organisation>, fallbackOrgId: Option<string>): Option<string> {
    if org.Some? && org.value.id.Some? then org.value.id else fallbackOrgId
  }

  /** The owning organisation's title, else "". */
  function OwnerTitle(org: Option<Organisation>): string {
    if org.Some? && org.value.title.Some? then org.value.title.value else ""
  }

  /** The owning organisation's contact, else "". */
  function OwnerContact(org: Option<Organisation>): string
    requires ExtrasComplete(org)
  {
    var extras := ExtrasOf(org);
    if extras == [] then "" else FirstValue(extras, "Contact").value
  }

  /** The data-dictionary URL of a slug, when `pdf_dict` has a non-empty one. */
  function PdfUrl(pdfDict: map<string, string>, slug: string): Option<string> {
    if slug in pdfDict && pdfDict[slug] != "" then Some(pdfDict[slug]) else None
  }

  /** The group dictionary of the parent layer's title, when there is one. */
  function GroupOf(parentTitle: Option<string>, groupDict: map<string, Group>): Option<Group> {
    if parentTitle.Some? && parentTitle.value in groupDict then Some(groupDict[parentTitle.value]) else None
  }

  /** The keywords every harvested package carries. */
  const HarvestTags: seq<string> := ["SLIP Classic", "Harvested"]

  /** The keywords: the two fixed ones, and the group's name when it has one. */
  function Tags(group: Option<Group>): seq<string> {
    HarvestTags + (if group.Some? && Truthy(group.value.name) then [group.value.name.value] else [])
  }

  /**
   * The group reference: present when the parent layer's group has an id.
   * A parent without a group still gives its theme: the lookup that fails
   * (line 301) comes after the theme is set at line 297.
   */
  function GroupIds(group: Option<Group>): Option<seq<string>> {
    if group.Some? && Truthy(group.value.id) then Some([group.value.id.value]) else None
  }

  /** The description of the endpoint resource, around the layer's name. */
  const DescriptionHead: string := "when prompted, use your [SLIP](https://www2.landgate.wa.gov.au/web/guest/how-to-access-slip-services) "
    + "username and password to preview the resource below "
    + "or open the resource URL in a GIS application (e.g. QGIS or ArcGIS) as layer _"
  const DescriptionTail: string := "_."

  /** The package description, around the layer's name. */
  const NotesHead: string := "The dataset _"
  const NotesTail: string := "_ has been sourced from Landgate's "
    + "Shared Location Information Platform (SLIP) - the home for Western Australian government geospatial data."
    + "\n\nMany of the datasets in SLIP are free and publicly available to users who simply "
    + "[sign up for a SLIP account](https://www2.landgate.wa.gov.au/web/guest/request-registration-type)."
    + "\n\nFind out more about SLIP at [http://slip.landgate.wa.gov.au/](http://slip.landgate.wa.gov.au/)."

  function SlipDescription(upperSlug: string): string {
    DescriptionHead + upperSlug + DescriptionTail
  }

  function SlipNotes(upperSlug: string): string {
    NotesHead + upperSlug + NotesTail
  }

  /** Fixed field values of every harvested package. */
  const SlipPortal: string := "http://slip.landgate.wa.gov.au/"
  const OpenLicenseTitle: string := "Other (Open)"
  const OpenLicenseId: string := "other-open"
  const LandgateEmail: string := "customerservice@landgate.wa.gov.au"
  const Landgate: string := "Landgate"
  const Frequent: string := "frequent"

  /** The data-dictionary resource. */
  function PdfResource(upperSlug: string, url: string): Resource {
    Resource(url, map["description" := "Data Dictionary for " + upperSlug, "format" := "PDF",
                      "name" := "Data dictionary and dataset metadata"])
  }

  /** The service-endpoint resource: the layer `upperSlug` at `wxsUrl`, in format `resFormat`. */
  function EndpointResource(title: string, upperSlug: string, wxsUrl: string, resFormat: string): Resource {
    Resource(wxsUrl, map["description" := SlipDescription(upperSlug), "format" := Lower(resFormat),
                         "name" := title + " (" + upperSlug + ") " + Upper(resFormat),
                         Lower(resFormat) + "_layer" := upperSlug])
  }

  /** The resources: the data dictionary, when there is one, then the service endpoint. */
  function PackageResources(title: string, upperSlug: string, pdf: Option<string>,
                            wxsUrl: string, resFormat: string): seq<Resource>
  {
    (if pdf.Some? then [PdfResource(upperSlug, pdf.value)] else []) + [EndpointResource(title, upperSlug, wxsUrl, resFormat)]
  }

  /**
   * The package dictionary `wxs_to_dict` builds, one field per key; `theme`
   * and `groups` are keys the dictionary may lack, and an absent
   * `owner_org` is Python's `None`.
   */
  datatype PackageDict = PackageDict(
    tagString: seq<string>,
    theme: Option<string>,
    groups: Option<seq<string>>,
    name: string,
    title: string,
    notes: string,
    ownerOrg: Option<string>,
    dataPortal: string,
    dataHomepage: string,
    licenseTitle: string,
    licenseId: string,
    author: string,
    authorEmail: string,
    maintainerEmail: string,
    maintainer: string,
    private: bool,
    spatial: string,
    publishedOn: string,
    lastUpdatedOn: string,
    updateFrequency: string,
    resources: seq<Resource>)

  /**
   * The package dictionary `wxs_to_dict` makes of a layer once `parse_name`
   * has given `parsed`: nothing without a slug, otherwise the dictionary.
   */
  function MappedFrom(parsed: ParsedName, layer: Layer, wxsUrl: string, orgDict: map<string, Organisation>,
                      groupDict: map<string, Group>, pdfDict: map<string, string>,
                      fallbackOrgId: Option<string>, resFormat: string,
                      slugify: string -> string): Option<PackageDict>
    requires parsed.name.Some? ==> ExtrasComplete(OrgOf(orgDict, OrgKey(parsed.name.value)))
  {
    match parsed.name
    case None => None
    case Some(slug) =>
      var title, upperSlug := parsed.title, Upper(slug);
      var org := OrgOf(orgDict, OrgKey(slug));
      var group := GroupOf(layer.parentTitle, groupDict);
      var pdf := PdfUrl(pdfDict, slug);
      Some(PackageDict(
        tagString := Tags(group),
        theme := layer.parentTitle,
        groups := GroupIds(group),
        name := slugify(title),
        title := title,
        notes := SlipNotes(upperSlug),
        ownerOrg := OwnerOrg(org, fallbackOrgId),
        dataPortal := SlipPortal,
        dataHomepage := if pdf.Some? then pdf.value else "",
        licenseTitle := OpenLicenseTitle,
        licenseId := OpenLicenseId,
        author := OwnerTitle(org),
        authorEmail := OwnerContact(org),
        maintainerEmail := LandgateEmail,
        maintainer := Landgate,
        private := false,
        spatial := layer.spatial,
        publishedOn := parsed.published,
        lastUpdatedOn := parsed.published,
        updateFrequency := Frequent,
        resources := PackageResources(title, upperSlug, pdf, wxsUrl, resFormat)))
  }

  /** `MappedFrom` for a parse that found `slug`, with each field written out. */
  lemma MappedFromSlug(parsed: ParsedName, slug: string, layer: Layer, wxsUrl: string,
                       orgDict: map<string, Organisation>, groupDict: map<string, Group>,
                       pdfDict: map<string, string>, fallbackOrgId: Option<string>, resFormat: string,
                       slugify: string -> string, pkg: PackageDict)
    requires parsed.name == Some(slug) && ExtrasComplete(OrgOf(orgDict, OrgKey(slug)))
    requires var org, group, pdf := OrgOf(orgDict, OrgKey(slug)), GroupOf(layer.parentTitle, groupDict), PdfUrl(pdfDict, slug);
      && pkg.tagString == Tags(group) && pkg.theme == layer.parentTitle && pkg.groups == GroupIds(group)
      && pkg.name == slugify(parsed.title) && pkg.title == parsed.title && pkg.notes == SlipNotes(Upper(slug))
      && pkg.ownerOrg == OwnerOrg(org, fallbackOrgId) && pkg.dataPortal == SlipPortal
      && pkg.dataHomepage == (if pdf.Some? then pdf.value else "")
      && pkg.licenseTitle == OpenLicenseTitle && pkg.licenseId == OpenLicenseId
      && pkg.author == OwnerTitle(org) && pkg.authorEmail == OwnerContact(org)
      && pkg.maintainerEmail == LandgateEmail && pkg.maintainer == Landgate
      && !pkg.private && pkg.spatial == layer.spatial
      && pkg.publishedOn == parsed.published && pkg.lastUpdatedOn == parsed.published
      && pkg.updateFrequency == Frequent
      && pkg.resources == PackageResources(parsed.title, Upper(slug), pdf, wxsUrl, resFormat)
    ensures MappedFrom(parsed, layer, wxsUrl, orgDict, groupDict, pdfDict, fallbackOrgId, resFormat, slugify) == Some(pkg)
  {
  }

  /** What `wxs_to_dict` returns when the clock reads `now`. */
  function Mapped(layer: Layer, wxsUrl: string, orgDict: map<string, Organisation>,
                  groupDict: map<string, Group>, pdfDict: map<string, string>,
                  fallbackOrgId: Option<string>, resFormat: string,
                  slugify: string -> string, now: DateTime): Option<PackageDict>
    requires Mappable(layer, orgDict) && IsFormattable(now)
  {
    MappedFrom(NameOf(layer.title, now), layer, wxsUrl, orgDict, groupDict, pdfDict, fallbackOrgId, resFormat, slugify)
  }

  // ---------------------------------------------------------------------------
  // wxs_to_dict

  /**
   * Lines 293-315: the keywords start as the two fixed ones; a parent layer
   * sets the theme, and its group, if `group_dict` has one, adds a group
   * reference when it has an id and a keyword when it has a name.
   */
  method ThemeAndGroup(parentTitle: Option<string>, groupDict: map<string, Group>)
    returns (tags: seq<string>, theme: Option<string>, groups: Option<seq<string>>)
    ensures tags == Tags(GroupOf(parentTitle, groupDict))
    ensures theme == parentTitle && groups == GroupIds(GroupOf(parentTitle, groupDict))
  {
    tags := HarvestTags;
    theme := None;
    groups := None;
    if parentTitle.Some? {
      var p := parentTitle.value;
      theme := Some(p);
      if p in groupDict {
        var grp := groupDict[p];
        if Truthy(grp.id) {
          groups := Some([grp.id.value]);
        }
        if Truthy(grp.name) {
          tags := tags + [grp.name.value];
        }
      }
    }
  }

  /**
   * Lines 318-328: the organisation named by the slug's prefix gives the
   * owner's id, title and contact; a missing organisation or key gives the
   * fallback id and empty strings.
   */
  method OwnerOrganisation(slug: string, orgDict: map<string, Organisation>, fallbackOrgId: Option<string>)
    returns (ownerOrgId: Option<string>, ownerOrgTitle: string, ownerOrgContact: string)
    requires ExtrasComplete(OrgOf(orgDict, OrgKey(slug)))
    ensures ownerOrgId == OwnerOrg(OrgOf(orgDict, OrgKey(slug)), fallbackOrgId)
    ensures ownerOrgTitle == OwnerTitle(OrgOf(orgDict, OrgKey(slug)))
    ensures ownerOrgContact == OwnerContact(OrgOf(orgDict, OrgKey(slug)))
  {
    var orgName := SplitOn(slug, '-')[0];
    var ownerOrgDict := if orgName in orgDict then Some(orgDict[orgName]) else None;
    ownerOrgId := if ownerOrgDict.Some? && ownerOrgDict.value.id.Some? then ownerOrgDict.value.id else fallbackOrgId;
    ownerOrgTitle := if ownerOrgDict.Some? && ownerOrgDict.value.title.Some? then ownerOrgDict.value.title.value else "";
    var extras := if ownerOrgDict.Some? && ownerOrgDict.value.extras.Some? then ownerOrgDict.value.extras.value else [];
    // The jurisdiction is looked up (and can fail) but never used.
    var ownerOrgJurisdiction;
    if extras != [] {
      ownerOrgContact := FirstValue(extras, "Contact").value;
      ownerOrgJurisdiction := FirstValue(extras, "Jurisdiction").value;
    } else {
      ownerOrgContact := "";
      ownerOrgJurisdiction := "Western Australia (default)";
    }
  }

  /**
   * Lines 366-388: the data dictionary, when `pdf_dict` has a non-empty URL
   * for the slug, becomes the first resource and the package's homepage;
   * the service endpoint always follows.
   */
  method AttachResources(dsTitle: string, slug: string, upperSlug: string, pdfDict: map<string, string>,
                         wxsUrl: string, resFormat: string)
    returns (homepage: string, resourceList: seq<Resource>)
    ensures homepage == (if PdfUrl(pdfDict, slug).Some? then PdfUrl(pdfDict, slug).value else "")
    ensures resourceList == PackageResources(dsTitle, upperSlug, PdfUrl(pdfDict, slug), wxsUrl, resFormat)
  {
    homepage := "";
    resourceList := [];
    if slug in pdfDict && pdfDict[slug] != "" {
      var pdfUrl := pdfDict[slug];
      homepage := pdfUrl;
      resourceList := resourceList + [PdfResource(upperSlug, pdfUrl)];
    }
    resourceList := resourceList + [EndpointResource(dsTitle, upperSlug, wxsUrl, resFormat)];
  }

  /**
   * `wxs_to_dict(layer, wxsUrl, orgDict, groupDict, pdfDict, fallbackOrgId,
   * resFormat)`: the theme, group and keywords, the owner and the resource
   * list are worked out step by step, as the source does.
   */
  method WxsToDict(layer: Layer, wxsUrl: string, orgDict: map<string, Organisation>,
                   groupDict: map<string, Group>, pdfDict: map<string, string>,
                   fallbackOrgId: Option<string>, resFormat: string,
                   slugify: string -> string, now: DateTime) returns (d: Option<PackageDict>)
    requires Mappable(layer, orgDict) && IsFormattable(now)
    ensures d == Mapped(layer, wxsUrl, orgDict, groupDict, pdfDict, fallbackOrgId, resFormat, slugify, now)
  {
    // The layer's own name; computed by the source and never used.
    var n := if layer.name.Some? then layer.name.value else MakeDatasetName(layer.id);

    var dsTitle, dsName, datePub := ParseName(layer.title, now);
    if dsName.None? {
      return None;
    }
    var slug := dsName.value;
    var upperSlug := Upper(slug);

    var tags, theme, groups := ThemeAndGroup(layer.parentTitle, groupDict);
    var ownerOrgId, ownerOrgTitle, ownerOrgContact := OwnerOrganisation(slug, orgDict, fallbackOrgId);
    var homepage, resourceList := AttachResources(dsTitle, slug, upperSlug, pdfDict, wxsUrl, resFormat);

    var pkg := PackageDict(
      tagString := tags, theme := theme, groups := groups,
      name := slugify(dsTitle), title := dsTitle, notes := SlipNotes(upperSlug),
      ownerOrg := ownerOrgId, dataPortal := SlipPortal, dataHomepage := homepage,
      licenseTitle := OpenLicenseTitle, licenseId := OpenLicenseId,
      author := ownerOrgTitle, authorEmail := ownerOrgContact,
      maintainerEmail := LandgateEmail, maintainer := Landgate,
      private := false, spatial := layer.spatial,
      publishedOn := datePub, lastUpdatedOn := datePub, updateFrequency := Frequent,
      resources := resourceList);
    MappedFromSlug(ParsedName(dsTitle, dsName, datePub), slug, layer, wxsUrl, orgDict, groupDict, pdfDict,
      fallbackOrgId, resFormat, slugify, pkg);
    d := Some(pkg);
  }

  // ---------------------------------------------------------------------------
  // Properties

  /** The organisation key is the slug's text before its first `-` (all of it when there is none). */
  lemma {:induction false} OrgKeyIsPrefix(slug: string)
    ensures OrgKey(slug) <= slug && '-' !in OrgKey(slug)
    ensures |OrgKey(slug)| < |slug| ==> slug[|OrgKey(slug)|] == '-'
    decreases |slug|
  {
    if slug != [] && slug[0] != '-' {
      OrgKeyIsPrefix(slug[1..]);
      var rest := SplitOn(slug[1..], '-');
      assert OrgKey(slug) == [slug[0]] + rest[0];
      assert [slug[0]] + slug[1..] == slug;
    }
  }

  /** A layer whose title yields no slug is skipped; any other layer is mapped. */
  lemma MappedSkipsWithoutSlug(layer: Layer, wxsUrl: string, orgDict: map<string, Organisation>,
                               groupDict: map<string, Group>, pdfDict: map<string, string>,
                               fallbackOrgId: Option<string>, resFormat: string,
                               slugify: string -> string, now: DateTime)
    requires Mappable(layer, orgDict) && IsFormattable(now)
    ensures Mapped(layer, wxsUrl, orgDict, groupDict, pdfDict, fallbackOrgId, resFormat, slugify, now).None?
        <==> SlugOf(layer.title).None?
  {
  }

  /**
   * A mapped package takes its title and dates from `parse_name`: the
   * title, and the parsed date as both publication and update date.
   */
  lemma MappedTitleAndDates(layer: Layer, wxsUrl: string, orgDict: map<string, Organisation>,
                            groupDict: map<string, Group>, pdfDict: map<string, string>,
                            fallbackOrgId: Option<string>, resFormat: string,
                            slugify: string -> string, now: DateTime)
    requires Mappable(layer, orgDict) && IsFormattable(now)
    requires SlugOf(layer.title).Some?
    ensures var d := Mapped(layer, wxsUrl, orgDict, groupDict, pdfDict, fallbackOrgId, resFormat, slugify, now).value;
      && d.title == TitleOf(layer.title) && d.name == slugify(TitleOf(layer.title))
      && d.publishedOn == PublishedOf(layer.title, now) && d.lastUpdatedOn == d.publishedOn
  {
  }

  /**
   * The owner is the organisation named by the slug's prefix, when
   * `org_dict` has it with an id, and the fallback id otherwise; a missing
   * organisation never stops the mapping, it leaves author and contact empty.
   */
  lemma MappedOwner(layer: Layer, wxsUrl: string, orgDict: map<string, Organisation>,
                    groupDict: map<string, Group>, pdfDict: map<string, string>,
                    fallbackOrgId: Option<string>, resFormat: string,
                    slugify: string -> string, now: DateTime)
    requires Mappable(layer, orgDict) && IsFormattable(now)
    requires SlugOf(layer.title).Some?
    ensures var slug := SlugOf(layer.title).value;
      var key := OrgKey(slug);
      var d := Mapped(layer, wxsUrl, orgDict, groupDict, pdfDict, fallbackOrgId, resFormat, slugify, now).value;
      && key <= slug && '-' !in key && (|key| < |slug| ==> slug[|key|] == '-')
      && d.ownerOrg == (if key in orgDict && orgDict[key].id.Some? then orgDict[key].id else fallbackOrgId)
      && (key !in orgDict ==> d.author == "" && d.authorEmail == "")
  {
    OrgKeyIsPrefix(SlugOf(layer.title).value);
  }

  /**
   * Keywords and groups come from the parent layer only: the two fixed
   * keywords always lead, a group reference needs a parent found in
   * `group_dict`, and without one the keywords are just the fixed two.
   * A parent found there gives a group reference exactly when its group has
   * an id, and a third keyword exactly when its group has a name.
   */
  lemma MappedThemeAndGroup(layer: Layer, wxsUrl: string, orgDict: map<string, Organisation>,
                            groupDict: map<string, Group>, pdfDict: map<string, string>,
                            fallbackOrgId: Option<string>, resFormat: string,
                            slugify: string -> string, now: DateTime)
    requires Mappable(layer, orgDict) && IsFormattable(now)
    requires SlugOf(layer.title).Some?
    ensures var d := Mapped(layer, wxsUrl, orgDict, groupDict, pdfDict, fallbackOrgId, resFormat, slugify, now).value;
      && d.theme == layer.parentTitle
      && HarvestTags <= d.tagString && |d.tagString| <= |HarvestTags| + 1
      && (d.groups.Some? ==> layer.parentTitle.Some? && layer.parentTitle.value in groupDict
                             && d.groups.value == [groupDict[layer.parentTitle.value].id.value])
      && (layer.parentTitle.None? || layer.parentTitle.value !in groupDict ==> d.groups.None? && d.tagString == HarvestTags)
      && (layer.parentTitle.Some? && layer.parentTitle.value in groupDict ==>
            var g := groupDict[layer.parentTitle.value];
            && d.groups == (if Truthy(g.id) then Some([g.id.value]) else None)
            && d.tagString == HarvestTags + (if Truthy(g.name) then [g.name.value] else []))
  {
  }

  /** A key that ends in "_layer" is none of the other keys of an endpoint resource. */
  lemma LayerKeyIsNew(resFormat: string)
    ensures var key := Lower(resFormat) + "_layer";
      key != "format" && key != "name" && key != "description"
  {
    var key := Lower(resFormat) + "_layer";
    assert key[|key| - 1] == 'r';
    assert "format"[5] == 't' && "description"[10] == 'n';
    assert |"name"| < |"_layer"| <= |key|;
  }

  /** The endpoint resource points at the service, in a lower-case format, naming the layer. */
  lemma EndpointFields(title: string, upperSlug: string, wxsUrl: string, resFormat: string)
    ensures var r := EndpointResource(title, upperSlug, wxsUrl, resFormat);
      && r.url == wxsUrl
      && "format" in r.fields && r.fields["format"] == Lower(resFormat)
      && (forall i :: 0 <= i < |r.fields["format"]| ==> !IsUpper(r.fields["format"][i]))
      && Lower(resFormat) + "_layer" in r.fields && r.fields[Lower(resFormat) + "_layer"] == upperSlug
      && "name" in r.fields && r.fields["name"] == title + " (" + upperSlug + ") " + Upper(resFormat)
  {
    LayerKeyIsNew(resFormat);
  }

  /** A mapped package's resources and home page, as `MappedFrom` builds them. */
  lemma MappedResourceList(layer: Layer, wxsUrl: string, orgDict: map<string, Organisation>,
                           groupDict: map<string, Group>, pdfDict: map<string, string>,
                           fallbackOrgId: Option<string>, resFormat: string,
                           slugify: string -> string, now: DateTime)
    requires Mappable(layer, orgDict) && IsFormattable(now)
    requires SlugOf(layer.title).Some?
    ensures var slug := SlugOf(layer.title).value;
      var d := Mapped(layer, wxsUrl, orgDict, groupDict, pdfDict, fallbackOrgId, resFormat, slugify, now);
      && d.Some?
      && d.value.resources == PackageResources(TitleOf(layer.title), Upper(slug), PdfUrl(pdfDict, slug), wxsUrl, resFormat)
      && d.value.dataHomepage == (if PdfUrl(pdfDict, slug).Some? then PdfUrl(pdfDict, slug).value else "")
  {
  }

  /** The data dictionary, when there is one, then the endpoint; their URLs differ unless the dictionary sits at the service URL. */
  lemma PackageResourcesShape(title: string, upperSlug: string, pdf: Option<string>, wxsUrl: string, resFormat: string)
    ensures var rs := PackageResources(title, upperSlug, pdf, wxsUrl, resFormat);
      && |rs| == (if pdf.Some? then 2 else 1)
      && rs[|rs| - 1] == EndpointResource(title, upperSlug, wxsUrl, resFormat)
      && (pdf.Some? ==> rs[0].url == pdf.value && "format" in rs[0].fields && rs[0].fields["format"] == "PDF")
      && (pdf != Some(wxsUrl) ==> UniqueUrls(rs))
  {
  }

  /**
   * The resources are the data dictionary, exactly when `pdf_dict` has a
   * URL for the slug, followed by exactly one service endpoint, which
   * points at `wxsUrl` and names the upper-cased slug as its layer; the
   * data dictionary's URL is also the package's home page.
   */
  lemma MappedResources(layer: Layer, wxsUrl: string, orgDict: map<string, Organisation>,
                        groupDict: map<string, Group>, pdfDict: map<string, string>,
                        fallbackOrgId: Option<string>, resFormat: string,
                        slugify: string -> string, now: DateTime)
    requires Mappable(layer, orgDict) && IsFormattable(now)
    requires SlugOf(layer.title).Some?
    ensures var slug := SlugOf(layer.title).value;
      var d := Mapped(layer, wxsUrl, orgDict, groupDict, pdfDict, fallbackOrgId, resFormat, slugify, now);
      var hasPdf := slug in pdfDict && pdfDict[slug] != "";
      && d.Some?
      && |d.value.resources| == (if hasPdf then 2 else 1)
      && (var endpoint := d.value.resources[|d.value.resources| - 1];
          && endpoint.url == wxsUrl
          && "format" in endpoint.fields && endpoint.fields["format"] == Lower(resFormat)
          && Lower(resFormat) + "_layer" in endpoint.fields && endpoint.fields[Lower(resFormat) + "_layer"] == Upper(slug))
      && (hasPdf ==> d.value.resources[0].url == pdfDict[slug] && "format" in d.value.resources[0].fields
                     && d.value.resources[0].fields["format"] == "PDF" && d.value.dataHomepage == pdfDict[slug])
      && (!hasPdf ==> d.value.dataHomepage == "")
  {
    var slug := SlugOf(layer.title).value;
    MappedResourceList(layer, wxsUrl, orgDict, groupDict, pdfDict, fallbackOrgId, resFormat, slugify, now);
    PackageResourcesShape(TitleOf(layer.title), Upper(slug), PdfUrl(pdfDict, slug), wxsUrl, resFormat);
    EndpointFields(TitleOf(layer.title), Upper(slug), wxsUrl, resFormat);
  }

  /**
   * A mapped package has no two resources with one URL unless its data
   * dictionary sits at the service URL itself; so, by `UpsertedUnique`,
   * creating it or merging it into a stored package without duplicates
   * leaves none.
   */
  lemma MappedUpsertKeepsUrlsUnique(layer: Layer, wxsUrl: string, orgDict: map<string, Organisation>,
                                    groupDict: map<string, Group>, pdfDict: map<string, string>,
                                    fallbackOrgId: Option<string>, resFormat: string,
                                    slugify: string -> string, now: DateTime,
                                    store: map<string, StoredPackage>, metadata: map<string, Value>,
                                    overwriteMetadata: bool, dropExistingResources: bool)
    requires Mappable(layer, orgDict) && IsFormattable(now)
    requires SlugOf(layer.title).Some?
    requires PdfUrl(pdfDict, SlugOf(layer.title).value) != Some(wxsUrl)
    ensures var d := Mapped(layer, wxsUrl, orgDict, groupDict, pdfDict, fallbackOrgId, resFormat, slugify, now);
      && d.Some? && UniqueUrls(d.value.resources)
      && (d.value.name in store ==> UniqueUrls(store[d.value.name].resources) ==>
            UniqueUrls(Upserted(store, d.value.name, StoredPackage(metadata, d.value.resources),
                                overwriteMetadata, dropExistingResources)[d.value.name].resources))
      && (d.value.name !in store ==>
            UniqueUrls(Upserted(store, d.value.name, StoredPackage(metadata, d.value.resources),
                                overwriteMetadata, dropExistingResources)[d.value.name].resources))
  {
    var slug := SlugOf(layer.title).value;
    MappedResourceList(layer, wxsUrl, orgDict, groupDict, pdfDict, fallbackOrgId, resFormat, slugify, now);
    PackageResourcesShape(TitleOf(layer.title), Upper(slug), PdfUrl(pdfDict, slug), wxsUrl, resFormat);
    var d := Mapped(layer, wxsUrl, orgDict, groupDict, pdfDict, fallbackOrgId, resFormat, slugify, now).value;
    if d.name !in store || UniqueUrls(store[d.name].resources) {
      UpsertedUnique(store, d.name, StoredPackage(metadata, d.resources), overwriteMetadata, dropExistingResources);
    }
  }

  /**
   * A layer whose slug matches no organisation and no data dictionary gets
   * the fallback owner, an empty author and contact, and the service
   * endpoint as its only resource.
   */
  lemma MappedWithoutOrgOrPdf(layer: Layer, wxsUrl: string, orgDict: map<string, Organisation>,
                              groupDict: map<string, Group>, pdfDict: map<string, string>,
                              fallbackOrgId: Option<string>, resFormat: string,
                              slugify: string -> string, now: DateTime)
    requires Mappable(layer, orgDict) && IsFormattable(now)
    requires SlugOf(layer.title).Some?
    requires OrgKey(SlugOf(layer.title).value) !in orgDict && SlugOf(layer.title).value !in pdfDict
    ensures var slug := SlugOf(layer.title).value;
      var d := Mapped(layer, wxsUrl, orgDict, groupDict, pdfDict, fallbackOrgId, resFormat, slugify, now);
      && d.Some? && d.value.title == TitleOf(layer.title) && d.value.publishedOn == PublishedOf(layer.title, now)
      && d.value.ownerOrg == fallbackOrgId && d.value.author == "" && d.value.authorEmail == ""
      && d.value.dataHomepage == ""
      && d.value.resources == [EndpointResource(TitleOf(layer.title), Upper(slug), wxsUrl, resFormat)]
  {
    var slug := SlugOf(layer.title).value;
    MappedResourceList(layer, wxsUrl, orgDict, groupDict, pdfDict, fallbackOrgId, resFormat, slugify, now);
    assert PdfUrl(pdfDict, slug).None?;
  }
}
