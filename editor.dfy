/** `RobotConstraintEditor`: the store of constraints keyed by tag (a
    `std::map<std::string, RawData>`), loaded from a file through the
    reader, edited by tag, listed and saved in tag order. */
module Editor {
  import opened Outcomes
  import opened Records
  import opened Yaml
  import opened TagOrder
  import Reader
  import opened LegacyReader
  import Writer

  const EDIT_FAILURE := "RobotConstraintEditor::edit_data: Fail to update the VFI data!"
  const SAVE_ERROR := "Error in save_data: "

  /** The store's invariant: every record is filed under its own tag. */
  predicate KeyedByTag(m: map<string, RawData>) {
    forall k :: k in m ==> m[k].tag == k
  }

  /** `records[i]` is the first record carrying its tag. */
  predicate FirstWithTag(records: seq<RawData>, i: int)
    requires 0 <= i < |records|
  {
    forall j :: 0 <= j < i ==> records[j].tag != records[i].tag
  }

  /** The map `load_data` builds: `try_emplace` each record under its tag in
      file order, so a later record with a tag already present is dropped.
      Every record ends up filed under its own tag. */
  function KeyByTag(records: seq<RawData>): (m: map<string, RawData>)
    ensures KeyedByTag(m)
    decreases |records|
  {
    if records == [] then map[]
    else
      var m := KeyByTag(records[..|records| - 1]);
      var r := records[|records| - 1];
      if r.tag in m then m else m[r.tag := r]
  }

  /** A store and the status of one edit: the C++ calls change the map and
      then either return or throw, and a throw may leave a changed map. */
  datatype Step = Step(store: map<string, RawData>, status: Outcome<()>)

  /** `add_data` */
  function AddStep(m: map<string, RawData>, data: RawData): Step {
    if data.tag in m then Step(m, Throw(RuntimeError("Tag '" + data.tag + "' is being used!")))
    else Step(m[data.tag := data], Ok(()))
  }

  /** `remove_data` */
  function RemoveStep(m: map<string, RawData>, tag: string): Step {
    if tag !in m then Step(m, Throw(RuntimeError("Tag '" + tag + "' not found!")))
    else Step(m - {tag}, Ok(()))
  }

  /** `replace_data` once a reader exists: checks, then `remove_data`
      followed by `add_data`; any failure is reported as one message, and
      the removal is not undone when the addition fails. */
  function ReplaceStep(m: map<string, RawData>, tag: string, data: RawData): Step {
    if tag !in m || GetVfiType(m[tag]) != GetVfiType(data) then
      Step(m, Throw(RuntimeError(EDIT_FAILURE)))
    else
      var removed := RemoveStep(m, tag).store;
      var added := AddStep(removed, data);
      if added.status.Throw? then Step(removed, Throw(RuntimeError(EDIT_FAILURE)))
      else Step(added.store, Ok(()))
  }

  /** The keys `load_data` files are exactly the tags of the records. */
  lemma {:induction false} KeyByTagKeys(records: seq<RawData>)
    ensures forall k :: k in KeyByTag(records) <==> exists i :: 0 <= i < |records| && records[i].tag == k
    decreases |records|
  {
    if records != [] {
      var n := |records| - 1;
      var init := records[..n];
      KeyByTagKeys(init);
      var m := KeyByTag(init);
      assert KeyByTag(records) == if records[n].tag in m then m else m[records[n].tag := records[n]];
      forall k
        ensures k in KeyByTag(records) <==> exists i :: 0 <= i < |records| && records[i].tag == k
      {
        if k in KeyByTag(records) && k != records[n].tag {
          assert k in m;
          var i :| 0 <= i < |init| && init[i].tag == k;
          assert records[i] == init[i];
        }
        if exists i :: 0 <= i < |records| && records[i].tag == k {
          var i :| 0 <= i < |records| && records[i].tag == k;
          if i < n {
            assert init[i] == records[i];
          }
        }
      }
    }
  }

  /** A tag no record carries is not a key. */
  lemma {:induction false} KeyByTagAbsent(records: seq<RawData>, tag: string)
    requires forall j :: 0 <= j < |records| ==> records[j].tag != tag
    ensures tag !in KeyByTag(records)
    decreases |records|
  {
    if records != [] {
      var init := records[..|records| - 1];
      assert forall j :: 0 <= j < |init| ==> init[j] == records[j];
      KeyByTagAbsent(init, tag);
    }
  }

  /** Under each tag `load_data` keeps the first record carrying it. */
  lemma {:induction false} KeyByTagFirstWins(records: seq<RawData>, i: int)
    requires 0 <= i < |records| && FirstWithTag(records, i)
    ensures records[i].tag in KeyByTag(records) && KeyByTag(records)[records[i].tag] == records[i]
    decreases |records|
  {
    var n := |records| - 1;
    var init := records[..n];
    var last := records[n];
    var m := KeyByTag(init);
    assert KeyByTag(records) == if last.tag in m then m else m[last.tag := last];
    if i < n {
      assert init[i] == records[i];
      assert FirstWithTag(init, i);
      KeyByTagFirstWins(init, i);
    } else {
      assert forall j :: 0 <= j < |init| ==> init[j] == records[j];
      KeyByTagAbsent(init, last.tag);
    }
  }

  /** The records of a store in ascending tag order: one per entry, each
      filed under its own tag, with the tags strictly ascending. */
  lemma InTagOrderFiled(m: map<string, RawData>)
    requires KeyedByTag(m)
    ensures |InTagOrder(m)| == |m|
    ensures forall i, j :: 0 <= i < j < |InTagOrder(m)| ==> Less(InTagOrder(m)[i].tag, InTagOrder(m)[j].tag)
    ensures forall i :: 0 <= i < |InTagOrder(m)| ==> InTagOrder(m)[i].tag in m && m[InTagOrder(m)[i].tag] == InTagOrder(m)[i]
  {
    var keys := Ascending(m.Keys);
    AscendingEnumerates(m.Keys);
    var rs := InTagOrder(m);
    assert forall i :: 0 <= i < |rs| ==> rs[i] == m[keys[i]];
  }

  /** Every record of the store appears in the ascending listing. */
  lemma InTagOrderComplete(m: map<string, RawData>)
    ensures forall k :: k in m ==> m[k] in InTagOrder(m)
  {
    var keys := Ascending(m.Keys);
    AscendingEnumerates(m.Keys);
    var rs := InTagOrder(m);
    forall k | k in m
      ensures m[k] in rs
    {
      assert k in keys;
      var i :| 0 <= i < |keys| && keys[i] == k;
      assert rs[i] == m[k];
    }
  }

  /** The records of a store in ascending tag order list every record
      once, filed under its own tag, with the tags strictly ascending. */
  lemma InTagOrderListsStore(m: map<string, RawData>)
    requires KeyedByTag(m)
    ensures |InTagOrder(m)| == |m|
    ensures forall i, j :: 0 <= i < j < |InTagOrder(m)| ==> Less(InTagOrder(m)[i].tag, InTagOrder(m)[j].tag)
    ensures forall i :: 0 <= i < |InTagOrder(m)| ==> InTagOrder(m)[i].tag in m && m[InTagOrder(m)[i].tag] == InTagOrder(m)[i]
    ensures forall k :: k in m ==> m[k] in InTagOrder(m)
  {
    InTagOrderFiled(m);
    InTagOrderComplete(m);
  }

  /** Loading the records `get_raw_data` lists rebuilds the same store. */
  lemma LoadAfterGetRawData(m: map<string, RawData>)
    requires KeyedByTag(m)
    ensures KeyByTag(InTagOrder(m)) == m
  {
    var rs := InTagOrder(m);
    InTagOrderListsStore(m);
    KeyByTagKeys(rs);
    var built := KeyByTag(rs);
    forall k | k in m
      ensures k in built && built[k] == m[k]
    {
      var i :| 0 <= i < |rs| && rs[i] == m[k];
      assert rs[i].tag == k;
      forall j | 0 <= j < i
        ensures rs[j].tag != rs[i].tag
      {
        LessIrreflexive(rs[i].tag);
      }
      KeyByTagFirstWins(rs, i);
    }
    assert built.Keys == m.Keys;
  }

  /** `add_data` keeps the invariant, fails exactly when the tag is taken
      (leaving the store as it was), and otherwise files the record under
      its tag and changes nothing else. */
  lemma AddStepSpec(m: map<string, RawData>, data: RawData)
    ensures KeyedByTag(m) ==> KeyedByTag(AddStep(m, data).store)
    ensures AddStep(m, data).status.Ok? <==> data.tag !in m
    ensures AddStep(m, data).status.Throw? ==> AddStep(m, data).store == m
    ensures AddStep(m, data).status.Ok? ==>
              && AddStep(m, data).store.Keys == m.Keys + {data.tag}
              && AddStep(m, data).store[data.tag] == data
              && forall k :: k in m ==> AddStep(m, data).store[k] == m[k]
  {
  }

  /** Removing what was just added gives back the store. */
  lemma RemoveUndoesAdd(m: map<string, RawData>, data: RawData)
    requires data.tag !in m
    ensures RemoveStep(AddStep(m, data).store, data.tag) == Step(m, Ok(()))
  {
    assert AddStep(m, data).store - {data.tag} == m;
  }

  /** Adding back what was just removed gives back the store. */
  lemma AddUndoesRemove(m: map<string, RawData>, tag: string)
    requires KeyedByTag(m) && tag in m
    ensures AddStep(RemoveStep(m, tag).store, m[tag]) == Step(m, Ok(()))
  {
    assert (m - {tag})[tag := m[tag]] == m;
  }

  /** `replace_data` succeeds exactly when the tag is present, the kinds
      agree and the new tag is free once the old entry is gone; then the
      store has the same size and holds the new record under its tag in
      place of the old one. An absent tag or a change of kind fails before
      anything is removed, so the store is unchanged. */
  lemma ReplaceStepSpec(m: map<string, RawData>, tag: string, data: RawData)
    requires KeyedByTag(m)
    ensures KeyedByTag(ReplaceStep(m, tag, data).store)
    ensures ReplaceStep(m, tag, data).status.Ok? <==>
              tag in m && GetVfiType(m[tag]) == GetVfiType(data) && (data.tag == tag || data.tag !in m)
    ensures ReplaceStep(m, tag, data).status.Ok? ==>
              ReplaceStep(m, tag, data).store == (m - {tag})[data.tag := data]
              && |ReplaceStep(m, tag, data).store| == |m|
    ensures ReplaceStep(m, tag, data).status.Throw? ==>
              ReplaceStep(m, tag, data).status.ex == RuntimeError(EDIT_FAILURE)
    ensures (tag !in m || GetVfiType(m[tag]) != GetVfiType(data)) ==> ReplaceStep(m, tag, data).store == m
  {
    if ReplaceStep(m, tag, data).status.Ok? {
      var removed := m - {tag};
      assert |removed| == |m| - 1;
      assert data.tag !in removed;
      assert |removed[data.tag := data]| == |removed| + 1;
    }
  }

  /** Replacing a record by one with the same tag and kind overwrites it. */
  lemma ReplaceSameTag(m: map<string, RawData>, data: RawData)
    requires KeyedByTag(m) && data.tag in m && GetVfiType(m[data.tag]) == GetVfiType(data)
    ensures ReplaceStep(m, data.tag, data) == Step(m[data.tag := data], Ok(()))
  {
    assert (m - {data.tag})[data.tag := data] == m[data.tag := data];
  }

  /** When the new record's tag belongs to another entry, `replace_data`
      throws after the old entry has already been erased. */
  lemma ReplaceCollisionErasesOld(m: map<string, RawData>, tag: string, data: RawData)
    requires tag in m && GetVfiType(m[tag]) == GetVfiType(data)
    requires data.tag != tag && data.tag in m
    ensures ReplaceStep(m, tag, data) == Step(m - {tag}, Throw(RuntimeError(EDIT_FAILURE)))
    ensures tag !in ReplaceStep(m, tag, data).store
  {
  }

  /** `RobotConstraintEditor` with its `Impl`. */
  class RobotConstraintEditor {
    var vfiFileVersion: Int32
    var zeroIndexed: bool
    /** `vfi_config_file_yaml_`: null until the first successful load. */
    var reader: LegacyVfiConfigurationFileYaml?
    /** `yaml_raw_data_map_` */
    var yamlRawDataMap: map<string, RawData>

    predicate Valid()
      reads this
    {
      KeyedByTag(yamlRawDataMap)
    }

    constructor ()
      ensures Valid()
      ensures vfiFileVersion == 2 && zeroIndexed
      ensures reader == null && yamlRawDataMap == map[]
    {
      vfiFileVersion := 2;
      zeroIndexed := true;
      reader := null;
      yamlRawDataMap := map[];
    }

    /** `load_data(config_file)`: `doc` is what the file holds. The reader
        is made at the first call only; later calls reuse the records it
        read then, whatever path or content they pass. A load that throws
        leaves the store and the missing reader as they were. */
    method LoadData(configFile: string, doc: Document) returns (r: Outcome<()>)
      requires Valid()
      modifies this
      ensures Valid()
      ensures vfiFileVersion == old(vfiFileVersion) && zeroIndexed == old(zeroIndexed)
      ensures old(reader) != null ==>
                && reader == old(reader)
                && r == Ok(())
                && yamlRawDataMap == KeyByTag(reader.rawData)
      ensures old(reader) == null && LegacyExtract(doc).Running? ==>
                && r == Ok(())
                && reader != null && fresh(reader)
                && reader.configFile == configFile
                && reader.rawData == LegacyExtract(doc).records
                && yamlRawDataMap == KeyByTag(LegacyExtract(doc).records)
      ensures old(reader) == null && LegacyExtract(doc).Stopped? ==>
                && r == Throw(LegacyExtract(doc).ex)
                && reader == null
                && yamlRawDataMap == old(yamlRawDataMap)
    {
      if reader == null {
        var made := LegacyVfiConfigurationFileYaml.New(configFile, doc);
        if made.Throw? {
          return Throw(made.ex);
        }
        reader := made.value;
      }
      var rawData := reader.GetRawData();
      FileByTag(rawData);
      r := Ok(());
    }

    /** The loop of `load_data`: clear the map, then `try_emplace` each
        record under its tag. */
    method FileByTag(rawData: seq<RawData>)
      modifies this
      ensures yamlRawDataMap == KeyByTag(rawData)
      ensures reader == old(reader)
      ensures vfiFileVersion == old(vfiFileVersion) && zeroIndexed == old(zeroIndexed)
    {
      yamlRawDataMap := map[];
      var i := 0;
      while i < |rawData|
        invariant 0 <= i <= |rawData|
        invariant yamlRawDataMap == KeyByTag(rawData[..i])
        invariant reader == old(reader)
        invariant vfiFileVersion == old(vfiFileVersion) && zeroIndexed == old(zeroIndexed)
      {
        var data := rawData[i];
        var tag := ExtractTag(data);
        assert rawData[..i + 1][..i] == rawData[..i];
        if tag !in yamlRawDataMap {
          yamlRawDataMap := yamlRawDataMap[tag := data];
        }
        i := i + 1;
      }
      assert rawData[..i] == rawData;
    }

    /** `is_tag_in_map` */
    predicate IsTagInMap(tag: string)
      reads this
    {
      tag in yamlRawDataMap
    }

    /** `add_data` */
    method AddData(data: RawData) returns (r: Outcome<()>)
      requires Valid()
      modifies this
      ensures Valid()
      ensures Step(yamlRawDataMap, r) == AddStep(old(yamlRawDataMap), data)
      ensures reader == old(reader)
      ensures vfiFileVersion == old(vfiFileVersion) && zeroIndexed == old(zeroIndexed)
    {
      var tag := ExtractTag(data);
      if IsTagInMap(tag) {
        return Throw(RuntimeError("Tag '" + tag + "' is being used!"));
      }
      yamlRawDataMap := yamlRawDataMap[tag := data];
      r := Ok(());
    }

    /** `remove_data` */
    method RemoveData(tag: string) returns (r: Outcome<()>)
      requires Valid()
      modifies this
      ensures Valid()
      ensures Step(yamlRawDataMap, r) == RemoveStep(old(yamlRawDataMap), tag)
      ensures reader == old(reader)
      ensures vfiFileVersion == old(vfiFileVersion) && zeroIndexed == old(zeroIndexed)
    {
      if !IsTagInMap(tag) {
        return Throw(RuntimeError("Tag '" + tag + "' not found!"));
      }
      yamlRawDataMap := yamlRawDataMap - {tag};
      r := Ok(());
    }

    /** `replace_data`: does nothing before a file has been loaded. The
        message of the inner failure goes to the error stream and is
        replaced by `EDIT_FAILURE`. */
    method ReplaceData(tag: string, data: RawData) returns (r: Outcome<()>)
      requires Valid()
      modifies this
      ensures Valid()
      ensures old(reader) == null ==> r == Ok(()) && yamlRawDataMap == old(yamlRawDataMap)
      ensures old(reader) != null ==> Step(yamlRawDataMap, r) == ReplaceStep(old(yamlRawDataMap), tag, data)
      ensures reader == old(reader)
      ensures vfiFileVersion == old(vfiFileVersion) && zeroIndexed == old(zeroIndexed)
    {
      if reader == null {
        return Ok(());
      }
      if !IsTagInMap(tag) {
        return Throw(RuntimeError(EDIT_FAILURE));
      }
      var current := yamlRawDataMap[tag];
      if GetVfiType(current) != GetVfiType(data) {
        return Throw(RuntimeError(EDIT_FAILURE));
      }
      var removed := RemoveData(tag);
      var added := AddData(data);
      if added.Throw? {
        return Throw(RuntimeError(EDIT_FAILURE));
      }
      r := Ok(());
    }

    /** `get_raw_data`: the records in the order the map visits its keys,
        smallest tag first. */
    method GetRawData() returns (rawData: seq<RawData>)
      ensures rawData == InTagOrder(yamlRawDataMap)
    {
      var remaining := yamlRawDataMap.Keys;
      ghost var visited: seq<string> := [];
      rawData := [];
      while remaining != {}
        invariant remaining <= yamlRawDataMap.Keys
        invariant Ascending(yamlRawDataMap.Keys) == visited + Ascending(remaining)
        invariant |rawData| == |visited|
        invariant forall i :: 0 <= i < |visited| ==> visited[i] in yamlRawDataMap && rawData[i] == yamlRawDataMap[visited[i]]
        decreases remaining
      {
        MinimumExists(remaining);
        var tag :| tag in remaining && IsMinimum(tag, remaining);
        MinimumUnique(tag, Minimum(remaining), remaining);
        assert Ascending(remaining) == [tag] + Ascending(remaining - {tag});
        rawData := rawData + [yamlRawDataMap[tag]];
        visited := visited + [tag];
        remaining := remaining - {tag};
      }
      AscendingEnumerates(yamlRawDataMap.Keys);
    }

    /** `save_data`: the lines written, each followed by a newline in the
        file. `writable` says whether the file could be opened for writing. */
    method SaveData(pathConfigFile: string, vfiFileVersion: Int32, zeroIndexed: bool,
                    writable: bool, render: Double -> string)
      returns (r: Outcome<seq<string>>)
      ensures pathConfigFile == [] ==>
                r == Throw(RuntimeError(SAVE_ERROR + "path_config_file path cannot be empty!"))
      ensures pathConfigFile != [] && !writable ==>
                r == Throw(RuntimeError(SAVE_ERROR + "Cannot open file for writing: " + pathConfigFile))
      ensures pathConfigFile != [] && writable ==>
                r == Ok(Writer.SaveText(vfiFileVersion, zeroIndexed, InTagOrder(yamlRawDataMap), render))
    {
      if pathConfigFile == [] {
        return Throw(RuntimeError(SAVE_ERROR + "path_config_file path cannot be empty!"));
      }
      if !writable {
        return Throw(RuntimeError(SAVE_ERROR + "Cannot open file for writing: " + pathConfigFile));
      }
      var records := GetRawData();
      var blocks := WriteBlocks(records, render);
      r := Ok(Writer.Header(vfiFileVersion, zeroIndexed) + blocks);
    }

    /** The loop of `save_data` over the map: one block per record. */
    static method WriteBlocks(records: seq<RawData>, render: Double -> string) returns (lines: seq<string>)
      ensures lines == Writer.Blocks(records, render)
    {
      lines := [];
      var i := 0;
      while i < |records|
        invariant 0 <= i <= |records|
        invariant lines == Writer.Blocks(records[..i], render)
      {
        Writer.BlocksSnoc(records, i, render);
        lines := lines + Writer.RecordLines(records[i], render);
        i := i + 1;
      }
      assert records[..i] == records;
    }
  }
}
