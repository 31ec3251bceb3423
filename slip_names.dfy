/** SLIP dataset names and the WFS layer names derived from them (harvest_helpers.py:18-34). */
module SlipNames {
  import opened Text

  /** `"slip:{0}".format(dataset_name.upper())` */
  function MakeSlipWfsName(datasetName: string): string {
    "slip:" + Upper(datasetName)
  }

  /** `slip_wfs_name.split(":")[1]`; without a colon Python raises IndexError. */
  function MakeDatasetName(slipWfsName: string): string
    requires ':' in slipWfsName
  {
    SplitOn(slipWfsName, ':')[1]
  }

  /** The dataset name is the text between the first colon and the next one (or the end). */
  lemma DatasetNameIsSecondField(p: string, q: string, rest: string)
    requires ':' !in p && ':' !in q
    requires rest == [] || rest[0] == ':'
    ensures ':' in p + ":" + q + rest
    ensures MakeDatasetName(p + ":" + q + rest) == q
  {
    assert p + ":" + q + rest == p + [':'] + (q + rest);
    SplitOnFirst(p, ':', q + rest);
    if rest != [] {
      assert q + rest == q + [':'] + rest[1..];
      SplitOnFirst(q, ':', rest[1..]);
    } else {
      assert q + rest == q;
    }
  }

  /** For a name without a colon, the WFS name gives back the upper-cased dataset name. */
  lemma SlipNameRoundTrip(datasetName: string)
    requires ':' !in datasetName
    ensures ':' in MakeSlipWfsName(datasetName)
    ensures MakeDatasetName(MakeSlipWfsName(datasetName)) == Upper(datasetName)
  {
    UpperKeepsOtherChars(datasetName, ':');
    assert MakeSlipWfsName(datasetName) == "slip" + ":" + Upper(datasetName) + "";
    DatasetNameIsSecondField("slip", Upper(datasetName), "");
  }

  /** An upper-case SLIP name without a second colon is rebuilt from its dataset name. */
  lemma WfsNameRoundTrip(name: string)
    requires ':' !in name && Upper(name) == name
    ensures MakeSlipWfsName(MakeDatasetName("slip:" + name)) == "slip:" + name
  {
    assert "slip:" + name == "slip" + ":" + name + "";
    DatasetNameIsSecondField("slip", name, "");
  }

  /** The name used by both doctests is already upper-case and has no colon. */
  lemma DoctestNameIsUpper()
    ensures Upper("LGATE-001") == "LGATE-001" && ':' !in "LGATE-001"
  {
    var name := "LGATE-001";
    assert forall i :: 0 <= i < |name| ==> !IsLower(name[i]);
  }

  /** The doctest of `make_slip_wfs_name`. */
  lemma SlipWfsNameExample()
    ensures MakeSlipWfsName("LGATE-001") == "slip:LGATE-001"
  {
    DoctestNameIsUpper();
  }

  /** The doctest of `make_dataset_name`. */
  lemma DatasetNameExample()
    ensures MakeDatasetName("slip:LGATE-001") == "LGATE-001"
  {
    DatasetNameIsSecondField("slip", "LGATE-001", "");
    assert "slip" + ":" + "LGATE-001" + "" == "slip:LGATE-001";
  }
}
