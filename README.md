# SLIP harvester helpers, modelled in Dafny

This project models the sequential core of `harvest_helpers.py`. That file harvests
Landgate's SLIP WMS/WFS layers into a CKAN catalog (data.wa.gov.au). The core has
four parts.

- **Layer names.** `make_slip_wfs_name` and `make_dataset_name` convert between a
  dataset name and its `slip:` WFS layer name. `force_key` reads a dictionary key
  and never returns `None`.
- **The title parser `parse_name`.** It splits a layer title such as
  `Misc Transport (Point) (Lgate-037) (18-10-2012 16:54:00)` into three parts:
  - a title;
  - a lower-case slug;
  - an ISO 8601 timestamp.

  It works at fixed offsets from the end of the token list. It repairs a glued
  `x(` first. It falls back to the clock when no date parses.
- **The package mapping `wxs_to_dict`.** It turns one service layer into a catalog
  package dictionary, or skips the layer when its title has no slug. It sets:
  - the theme, keywords and group from the parent layer;
  - the owner from the organisation named by the slug's prefix;
  - an optional data-dictionary resource, followed by exactly one service-endpoint
    resource.
- **Resource merging and upsert.**
  - `add_resource_to_list` appends a resource in place when its URL is new.
  - `add_resources_to_list` does so for each incoming resource in turn.
  - `upsert_dataset` creates a package the catalog lacks. A package the catalog
    already has is written back with its resources dropped or merged and its
    metadata overwritten or kept.

Layout: one Dafny module per component.

| file | module | models |
|---|---|---|
| `wrappers.dfy` | `Wrappers` | `Option` |
| `text.dfy` | `Text` | the Python string builtins used: `lower`, `upper`, `split()`, `split(sep)`, `" ".join`, `replace(c, "")` |
| `timestamps.dfy` | `Timestamps` | `strptime("%d-%m-%Y %H:%M:%S")` followed by `strftime("%Y-%m-%dT%H:%M:%S")` |
| `slip_names.dfy` | `SlipNames` | `make_slip_wfs_name`, `make_dataset_name` |
| `name_parser.dfy` | `NameParser` | `parse_name`: a specification (`NameOf`) and the step-by-step method (`ParseName`) |
| `parse_name_examples.dfy` | `ParseNameExamples` | the six doctests of `parse_name` |
| `records.dfy` | `Records` | package field values, resource dictionaries, `force_key` |
| `resources.dfy` | `Resources` | the merge specification (`Merged`) and the in-place list methods |
| `upsert.dfy` | `Upsert` | the catalog as a map from name to stored package; `upsert_dataset` |
| `package_mapper.dfy` | `PackageMapper` | `wxs_to_dict`: a specification (`Mapped`) and the step-by-step method (`WxsToDict`) |
| `mapper_examples.dfy` | `MapperExamples` | `wxs_to_dict` on the layer of the `Graticule (REF-001)` doctest |

The imperative code keeps its imperative form:

- **`parse_name`** becomes `ParseName`. It sets the `chop_off`, `date_missing` and
  `set_dummy_date` flags step by step and is proved equal to `NameOf`.
- **`wxs_to_dict`** becomes `WxsToDict`. It builds the dictionary and the resource
  list in steps and is proved equal to `Mapped`.
- **The resource list** is a `ResourceList` object. `AddResourceToList` and
  `AddResourcesToList` extend it in place and return the same object.
- **`upsert_dataset`** works on `Package` objects and a `Catalog` object. It
  reproduces the aliasing of the source:
  - the merge appends into the list object that `package_show` returned;
  - `pkg["resources"] = ...` overwrites the field of whichever dictionary was
    chosen, including the caller's own dictionary when metadata are overwritten.

Inputs the source reads from its environment become parameters:

- the clock (`datetime.now()`) is `now`;
- `slugify` is a function parameter;
- the GeoJSON rendering of a layer's bounding box is an opaque `spatial` string;
- the catalog behind `ckanapi` is a `Catalog` whose contents are a map from name
  to stored package.

## Model

| member | source | states |
|---|---|---|
| SlipNames.SlipNameRoundTrip | harvest_helpers.py:18-34 | For a name without `:`, taking the dataset name of its WFS name gives the name upper-cased. |
| SlipNames.WfsNameRoundTrip | harvest_helpers.py:18-34 | An upper-case name without `:` behind `slip:` is rebuilt exactly from its dataset name. |
| SlipNames.DatasetNameIsSecondField | harvest_helpers.py:28-34 | `make_dataset_name` returns the text between the first colon and the next colon (or the end). |
| SlipNames.SlipWfsNameExample | harvest_helpers.py:18-25 | The doctest: `LGATE-001` gives `slip:LGATE-001`. |
| SlipNames.DatasetNameExample | harvest_helpers.py:28-34 | The doctest: `slip:LGATE-001` gives `LGATE-001`. |
| Records.ForceKey | harvest_helpers.py:891-894 | The result is never `None`. It is the stored value when the key is present and not `None`, and the empty string otherwise. |
| Timestamps.ParseTimestamp | harvest_helpers.py:150 | Every timestamp `strptime` accepts and `strftime` can render is a valid calendar date and time, with a year of at least 1900. |
| Timestamps.ParseRendered | harvest_helpers.py:150 | A date and time written as `DD-MM-YYYY` and `HH:MM:SS`, with fields in the ranges the format admits, parses back to itself exactly when it is a real, formattable date. |
| Timestamps.ParseTimestampRoundTrip | harvest_helpers.py:150 | Every formattable timestamp, written in the input format, parses back to itself. |
| Timestamps.FormatIsoRoundTrip | harvest_helpers.py:150 | The ISO rendering is 19 characters, zero-padded, and reads back to the same timestamp. |
| Timestamps.FormatIsoInjective | harvest_helpers.py:150 | Distinct timestamps render to distinct ISO strings. |
| Timestamps.LeapDay | harvest_helpers.py:150 | `29-02-YYYY 00:00:00` parses exactly when YYYY is a leap year. |
| NameParser.InsertParenSpaceRepairs | harvest_helpers.py:128-130 | After the regex substitution, no lower-case letter is directly followed by `(`, and the text starts with `(` exactly when it did before. |
| NameParser.InsertParenSpaceKeeps | harvest_helpers.py:128-130 | A text with no lower-case letter directly before `(` is left unchanged. |
| NameParser.InsertParenSpaceAppend | harvest_helpers.py:130 | The substitution of a concatenation, with an untouched prefix that needs no repair at the junction, leaves that prefix as it is. |
| NameParser.RepairGluedParen | harvest_helpers.py:128-130 | The substitution consumes the letter before `(`: `...s(rest` becomes `... (rest`. |
| NameParser.TokensOfJoin | harvest_helpers.py:130-132 | A text joined from plain tokens splits back into exactly those tokens. |
| NameParser.DateOrClock | harvest_helpers.py:145-161 | Running the flags and the `try` block as the source does gives the specified date. That is the parsed date, or the clock when the last token starts with `(` or the pair does not parse (where `ParseTimestamp`, `ParseRendered` and `FormatIsoRoundTrip` say what parses and how it is rendered). |
| NameParser.ParseName | harvest_helpers.py:120-174 | The step-by-step parser returns the title, slug and date of the specification `NameOf`. |
| NameParser.WholeTitle | harvest_helpers.py:163-171 | When the last token does not end with `)`, the slug is `None` and the title is every token. |
| NameParser.NoSlugTitle | harvest_helpers.py:163-171 | A title whose last word does not end with `)` has no slug and keeps all its words, rejoined with single spaces. |
| NameParser.LoneParenthetical | harvest_helpers.py:137-171 | A last token `(...)` is the slug, lower-cased and without parentheses. The title is the tokens before it and the date is the clock's. |
| NameParser.SingleParenthetical | harvest_helpers.py:137-171 | `words (ID)` parses to `(words, id lower-cased, now)`. |
| NameParser.DatedShape | harvest_helpers.py:145-171 | With three trailing tokens slug, `(date` and `time)`, the following hold. The slug is the third-to-last token, stripped and lower-cased, whether or not the date parses. The title is the tokens before the slug. The date is the pair's ISO form when it parses, and the clock otherwise. |
| NameParser.DatedTokens | harvest_helpers.py:145-171 | The same for any text whose tokens have that shape. |
| NameParser.DatedTitle | harvest_helpers.py:145-171 | `words (ID) (DD-MM-YYYY HH:MM:SS)` for a real date gives the title, the lower-cased ID and that date in ISO form. |
| NameParser.DateTokens | harvest_helpers.py:146 | `(date` and `time)` lose exactly their parenthesis under `replace`. |
| ParseNameExamples.HydrographicCatchmentsDated | harvest_helpers.py:52-61 | The first doctest: title, `dow-013` and `2008-11-03T15:07:44`. |
| ParseNameExamples.MiscTransportDated | harvest_helpers.py:63-72 | The second doctest: the inner `(Point)` stays in the title. |
| ParseNameExamples.HydrographicCatchmentsUndated | harvest_helpers.py:74-83 | The third doctest: no date, so the clock's. |
| ParseNameExamples.OverviewRiverRepair | harvest_helpers.py:85-94 | `Overview Rivers(LGATE-053) ...` is repaired to `Overview River (LGATE-053) ...`. |
| ParseNameExamples.OverviewRiversGlued | harvest_helpers.py:85-94 | The fourth doctest: the title comes out as `Overview River`. |
| ParseNameExamples.GraticuleUndated | harvest_helpers.py:96-105 | The fifth doctest: `("Graticule", "ref-001", now)`. |
| ParseNameExamples.VirtualMosaic | harvest_helpers.py:107-118 | The sixth doctest: the date fails to parse, there is no slug, and the title is the whole text. |
| Resources.HasUrl | harvest_helpers.py:490 | The scan finds a resource with the URL exactly when the list holds that URL. |
| Resources.AddResourceToList | harvest_helpers.py:479-500 | The same list object is returned, extended in place by the resource exactly when its URL is new. |
| Resources.AddIfNewUrls | harvest_helpers.py:490-500 | Adding keeps the old list as a prefix, adds exactly the resource's URL, and grows the list by one exactly when that URL was new. |
| Resources.AddIfNewUnique | harvest_helpers.py:490-500 | Adding never creates a duplicate URL. |
| Resources.AddResourcesToList | harvest_helpers.py:503-517 | The same list object is returned, and it now holds the merge of its old contents with the incoming resources. |
| Resources.MergedSnoc | harvest_helpers.py:515-516 | The merge is `add_resource_to_list` applied to each incoming resource in turn. |
| Resources.MergedSingle | harvest_helpers.py:479-517 | Merging one resource is adding it. |
| Resources.MergedUrls | harvest_helpers.py:503-517 | The old list is a prefix of the result, and the result holds exactly the URLs of both lists. |
| Resources.AppendedUrls | harvest_helpers.py:503-517 | The appended resources carry exactly the incoming URLs that were not already present. |
| Resources.AppendedUnique | harvest_helpers.py:503-517 | The appended resources have pairwise distinct URLs, none of them already present. |
| Resources.AppendedFromIncoming | harvest_helpers.py:503-517 | Every appended resource is one of the incoming resources. |
| Resources.AppendedNothingNew | harvest_helpers.py:503-517 | When every incoming URL is already present, nothing is appended. |
| Resources.MergedUnique | harvest_helpers.py:503-517 | Merging into a list without duplicate URLs leaves none. |
| Resources.MergedIdempotent | harvest_helpers.py:503-517 | Merging the same incoming list again changes nothing. |
| Resources.MergeKeepsExistingOrder | harvest_helpers.py:503-517 | Existing `[a, b]` merged with `[b', c]` gives `[a, b, c]`: the order is kept and a known URL is skipped. |
| Resources.FirstOccurrenceWins | harvest_helpers.py:503-517 | Of two incoming resources with the same new URL, only the first is appended. |
| Upsert.Catalog.PackageShow | harvest_helpers.py:557 | `package_show` finds a package exactly when the catalog holds the name, and returns a fresh copy of it. |
| Upsert.Catalog.PackageWrite | harvest_helpers.py:565 | `package_create` and `package_update` store the package under its name, change nothing else, and return a fresh copy. |
| Upsert.UpsertDataset | harvest_helpers.py:520-612 | Covers every case. Without a dictionary or a name: `None` and the catalog unchanged. A name that is not found: created. A name that is found: written back as `Reconciled`. The result is a copy of what was stored. The caller's dictionary points at the merged list exactly when merging with overwriting on. |
| Upsert.UpsertedResources | harvest_helpers.py:573-601 | After an upsert, the package is stored. A merged package keeps its old resources as a prefix and holds the URLs of both lists. A new or dropped package holds exactly the incoming resources. No other package changes. |
| Upsert.UpsertedMetadata | harvest_helpers.py:592-601 | The stored metadata are the incoming ones, unless an existing package is kept with overwriting off. |
| Upsert.UpsertedUnique | harvest_helpers.py:573-607 | No upsert creates duplicate URLs when the stored list has none and, if that list is replaced, the incoming list has none either. |
| Upsert.UpsertedIdempotent | harvest_helpers.py:520-612 | Upserting the same package twice leaves the catalog as one upsert does, for every flag. |
| Upsert.UpsertExamples | harvest_helpers.py:581-601 | Stored `[a, b]` and incoming `[b', c]`: merging gives `[a, b, c]`, dropping gives `[b', c]`, and with overwriting off the stored metadata are kept. |
| PackageMapper.ThemeAndGroup | harvest_helpers.py:293-315 | The keywords, theme and group reference are those of the parent layer's group, as specified by `Tags` and `GroupIds`. |
| PackageMapper.OwnerOrganisation | harvest_helpers.py:318-328 | The owner's id, title and contact come from the organisation named by the slug's prefix, with the fallbacks. |
| PackageMapper.AttachResources | harvest_helpers.py:366-388 | The home page and resources are the data dictionary, when there is one, followed by the endpoint. |
| PackageMapper.WxsToDict | harvest_helpers.py:195-395 | The step-by-step method returns the package that the specification `Mapped` describes, or `None`. |
| PackageMapper.OrgKeyIsPrefix | harvest_helpers.py:318 | The organisation key is the slug's prefix before its first `-`, and holds no `-`. |
| PackageMapper.MappedSkipsWithoutSlug | harvest_helpers.py:286-289 | A layer is skipped exactly when its title yields no slug. |
| PackageMapper.MappedTitleAndDates | harvest_helpers.py:335-361 | The package's title and name come from the parsed title. The parsed date is both the publication date and the update date. |
| PackageMapper.MappedOwner | harvest_helpers.py:318-328 | The owner is the id of the organisation keyed by the slug's prefix, else the fallback id. A missing organisation leaves author and contact empty. |
| PackageMapper.MappedThemeAndGroup | harvest_helpers.py:293-315 | The theme is the parent's title and the two fixed keywords lead. A group reference needs the parent to be in `group_dict`; without that, the keywords are just the fixed two. A parent found there gives the group reference `[id]` exactly when its group has a non-empty id, and a third keyword, the group's name, exactly when its group has a non-empty name. |
| PackageMapper.EndpointFields | harvest_helpers.py:381-388 | The endpoint points at the service URL, has a lower-case format, and names the upper-cased slug under `<format>_layer`. |
| PackageMapper.PackageResourcesShape | harvest_helpers.py:366-390 | One or two resources, the endpoint last. The data dictionary comes first when present. The URLs are distinct unless the dictionary sits at the service URL. |
| PackageMapper.MappedResources | harvest_helpers.py:366-390 | A data dictionary comes first exactly when `pdf_dict` has a non-empty URL for the slug, and that URL is then the home page. Exactly one endpoint follows, at `wxs_url`, naming the upper-cased slug. |
| PackageMapper.MappedUpsertKeepsUrlsUnique | harvest_helpers.py:366-390 | A mapped package has distinct resource URLs, so creating it or merging it keeps a package free of duplicates. |
| PackageMapper.MappedWithoutOrgOrPdf | harvest_helpers.py:318-390 | A slug that matches no organisation and no data dictionary gives the fallback owner, an empty author, contact and home page, and the endpoint as the only resource. |
| MapperExamples.GraticuleMapped | harvest_helpers.py:96-105 | `Graticule (REF-001)` as a WMS layer with no matching organisation or dictionary maps to: title `Graticule`, the clock's date, the fallback owner, and one `wms` endpoint for layer `REF-001`. |

## Left out

- The network calls through `ckanapi` are not modelled as I/O. `package_show`, `package_create` and `package_update` act on an in-memory catalog map. A failed `package_create` is not modelled: the source leaves it uncaught, so the model treats every write as successful. `upsert_org`, `upsert_group`, `upsert_orgs`, `upsert_groups`, `get_layer_dict` and `upsert_datasets` are thin wrappers or loops over these calls and are not part of this model.
- `gs28_to_ckan` (lines 399-453), with its caller `get_layer_dict_gs28`, is a second layer-to-package mapper for GeoServer 2.8 layers, with its own organisation lookup, keywords, licence and maintainer. It is outside this model's scope.
- Upsert.UpsertDataset: a dictionary without a `"resources"` key, on which line 551 raises `KeyError`, cannot be expressed, because a `Package` always holds a resource list.
- Upsert.UpsertDataset: a `"name"` key that is present but `None` is treated like a missing key: nothing is written and the result is `None`. The source passes `has_key` at line 542 and calls `package_show(id=None)` and then `package_create`, whose outcome depends on the remote catalog and is not modelled.
- Upsert.UpsertDataset: the default arguments `overwrite_metadata=True` and `drop_existing_resources=True` (lines 520-521) are required parameters here, as are `fallback_org_id=None` and `res_format="WMS"` of `wxs_to_dict` (lines 195-196) in PackageMapper.WxsToDict. Callers pass the defaults explicitly.
- Resources.AddResourceToList: every resource has a URL. The `KeyError` that line 490 raises for a resource dictionary without a `"url"` key is not modelled.
- Service discovery over the network is not part of this model: `get_arc_services`, `get_arc_servicedict`, `parse_argis_rest_layer`, `harvest_arcgis_service`, and `get_group_dict`, which reads a live WMS object.
- `bboxWGS84_to_gjMP` and `arcservice_extent_to_gjMP` use floating point, reprojection and JSON serialisation. The bounding box reaches the package as an opaque `spatial` string.
- `get_pdf_dict` and `get_org_dict` read CSV files. Their results are the `pdfDict` and `orgDict` parameters.
- `slugify` is an external library, so it is a function parameter. The clock (`datetime.now()`) is a `now` parameter.
- The debug `print` output is not modelled. `secret_template.py` holds configuration constants only.
- NameParser.ParseName: the cases where `parse_name` raises `IndexError` are a precondition (`Parseable`), not an error result. This applies in three cases:
  - an empty token list;
  - a single token that does not start with `(` (line 146 reads `p[-2]`);
  - two tokens where the last ends with `)` but does not start with `(` (line 164 reads `p[-3]`).

  The second case covers every such single token, not only one ending in `)`, because line 146 runs whenever the last token does not start with `(`.
- PackageMapper.WxsToDict: the exceptions it can raise are a precondition (`Mappable`), not an error result:
  - `make_dataset_name` on an id without `:` (line 282);
  - the `IndexError` of a non-empty `extras` list without a `Contact` or `Jurisdiction` entry (lines 324-325).

  The jurisdiction is looked up but never used, and the layer name `n` is computed but never used.
- PackageMapper.WxsToDict: the package dictionary is a record with one field per key. The group reference `{"id": ...}` is its id alone. Dictionary values that are present but `None` are not distinguished from absent keys.
- Timestamps.ParseTimestamp: the two tokens never contain whitespace, so the single space in the format is matched exactly. `strptime`'s general whitespace rules are not modelled.
- Strings are sequences of characters. `encode('utf-8')` is left out, and case conversion covers ASCII letters only.
