/**
 * The stateless risk analyser (`backend/app/landslide_analyzer.py`): the
 * threshold alerts for GNSS displacement, rain, tilt/shock and water level,
 * the Cruden & Varnes velocity classifications, the long-term velocity
 * analysis with its trend and risk rules, and the combined assessment.
 *
 * Every analyser runs inside `try/except` in the source; an exception is
 * modelled as the value the handler returns (`None`, "Unknown", "stable" or
 * status "error"). `math.sqrt` of the displacement vector and numpy's
 * `polyfit` slope are parameters.
 */
module LandslideAnalyzer {
  import opened Wrappers
  import opened JsonValues
  import opened Levels
  import MainApi
  import AdminRouter

  // ---------------------------------------------------------------------------
  // Configuration
  // ---------------------------------------------------------------------------

  /** The stored value `config[section][key]`, when the section is a dictionary that has the key. */
  function Stored(config: Dict, section: string, key: string): Option<Json> {
    if section in config && config[section].JObj? && key in config[section].fields
    then Some(config[section].fields[key]) else None
  }

  /**
   * `_get_cfg`: `float(config.get(section, {}).get(key, default))`, with the
   * default again when the section is not a dictionary or the value does not
   * convert.
   */
  function GetCfg(config: Dict, section: string, key: string, default: real): (r: real)
    ensures Stored(config, section, key).None? ==> r == default
    ensures Stored(config, section, key).Some? && ToFloat(Stored(config, section, key).value).None? ==> r == default
    ensures Stored(config, section, key).Some? && ToFloat(Stored(config, section, key).value).Some? ==>
      r == ToFloat(Stored(config, section, key).value).value
  {
    match Stored(config, section, key)
    case None => default
    case Some(v) => match ToFloat(v) case Some(x) => x case None => default
  }

  /** The thresholds the analysers read from the default station configuration. */
  lemma DefaultConfigThresholds(gnssWarning: real, gnssCritical: real, shockDefault: real)
    ensures var c := AdminRouter.DefaultStationConfig();
      GetCfg(c, "RainAlerting", "rain_intensity_warning_threshold", 25.0) == 25.0
      && GetCfg(c, "RainAlerting", "rain_intensity_critical_threshold", 50.0) == 50.0
      && GetCfg(c, "Water", "warning_threshold", gnssWarning) == 0.15
      && GetCfg(c, "Water", "critical_threshold", gnssCritical) == 0.30
      && GetCfg(c, "ImuAlerting", "shock_threshold_ms2", shockDefault) == 5.0
      && GetCfg(c, "water", "warning_level", 999.0) == 999.0
      && GetCfg(c, "water", "critical_level", 999.0) == 999.0
  {
    var c := AdminRouter.DefaultStationConfig();
    AdminRouter.DefaultSections();
    assert Stored(c, "RainAlerting", "rain_intensity_warning_threshold") == Some(JNum(25.0));
    assert Stored(c, "RainAlerting", "rain_intensity_critical_threshold") == Some(JNum(50.0));
    assert Stored(c, "Water", "warning_threshold") == Some(JNum(0.15));
    assert Stored(c, "Water", "critical_threshold") == Some(JNum(0.30));
    assert Stored(c, "ImuAlerting", "shock_threshold_ms2") == Some(JNum(5.0));
    assert Stored(c, "water", "warning_level") == None;
  }

  // ---------------------------------------------------------------------------
  // Python's stable `sorted(..., key=k, reverse=r)`
  // ---------------------------------------------------------------------------

  /** An element together with its sort key. */
  datatype Keyed<T> = Keyed(key: real, item: T)

  /** `a` may stand before `b`: ascending, or descending with `reverse=True`. */
  predicate InOrder(a: real, b: real, descending: bool) {
    if descending then a >= b else a <= b
  }

  predicate Sorted<T>(s: seq<Keyed<T>>, descending: bool) {
    forall i, j :: 0 <= i < j < |s| ==> InOrder(s[i].key, s[j].key, descending)
  }

  /** Puts `x` after every element that may stand before it, so equal keys keep their order. */
  function Insert<T>(x: Keyed<T>, s: seq<Keyed<T>>, descending: bool): (r: seq<Keyed<T>>)
    ensures |r| == |s| + 1
    decreases |s|
  {
    if s == [] then [x]
    else if InOrder(s[0].key, x.key, descending) then [s[0]] + Insert(x, s[1..], descending)
    else [x] + s
  }

  lemma {:induction false} InsertPermutes<T>(x: Keyed<T>, s: seq<Keyed<T>>, descending: bool)
    ensures multiset(Insert(x, s, descending)) == multiset(s) + multiset{x}
    decreases |s|
  {
    if s != [] {
      InsertPermutes(x, s[1..], descending);
      assert s == [s[0]] + s[1..];
    }
  }

  lemma {:induction false} InsertSorted<T>(x: Keyed<T>, s: seq<Keyed<T>>, descending: bool)
    requires Sorted(s, descending)
    ensures Sorted(Insert(x, s, descending), descending)
    decreases |s|
  {
    if s != [] && InOrder(s[0].key, x.key, descending) {
      var rest := Insert(x, s[1..], descending);
      InsertSorted(x, s[1..], descending);
      InsertPermutes(x, s[1..], descending);
      forall k | 0 <= k < |rest|
        ensures InOrder(s[0].key, rest[k].key, descending)
      {
        assert rest[k] in multiset(rest);
        assert rest[k] in multiset(s[1..]) || rest[k] == x;
        if rest[k] != x {
          assert rest[k] in s[1..];
        }
      }
    }
  }

  /** Insertion into the sorted prefix, element by element: Python's stable sort. */
  function Sort<T>(s: seq<Keyed<T>>, descending: bool): (r: seq<Keyed<T>>)
    ensures |r| == |s|
    decreases |s|
  {
    if s == [] then [] else Insert(s[|s| - 1], Sort(s[..|s| - 1], descending), descending)
  }

  /** The result is in order and a permutation of the input. */
  lemma {:induction false} SortSorts<T>(s: seq<Keyed<T>>, descending: bool)
    ensures Sorted(Sort(s, descending), descending)
    ensures multiset(Sort(s, descending)) == multiset(s)
    decreases |s|
  {
    if s != [] {
      SortSorts(s[..|s| - 1], descending);
      InsertSorted(s[|s| - 1], Sort(s[..|s| - 1], descending), descending);
      InsertPermutes(s[|s| - 1], Sort(s[..|s| - 1], descending), descending);
      assert s == s[..|s| - 1] + [s[|s| - 1]];
    }
  }

  lemma {:induction false} InsertAfterAll<T>(x: Keyed<T>, s: seq<Keyed<T>>, descending: bool)
    requires forall i :: 0 <= i < |s| ==> InOrder(s[i].key, x.key, descending)
    ensures Insert(x, s, descending) == s + [x]
    decreases |s|
  {
    if s != [] {
      InsertAfterAll(x, s[1..], descending);
      assert [s[0]] + (s[1..] + [x]) == s + [x];
    }
  }

  /** Stability: an input already in order comes back unchanged, equal keys included. */
  lemma {:induction false} SortKeepsOrderedInput<T>(s: seq<Keyed<T>>, descending: bool)
    requires Sorted(s, descending)
    ensures Sort(s, descending) == s
    decreases |s|
  {
    if s != [] {
      var init := s[..|s| - 1];
      assert Sorted(init, descending);
      SortKeepsOrderedInput(init, descending);
      InsertAfterAll(s[|s| - 1], init, descending);
      assert init + [s[|s| - 1]] == s;
    }
  }

  // ---------------------------------------------------------------------------
  // Velocity class tables
  // ---------------------------------------------------------------------------

  /** A class of a table: the velocity it starts at and its `name`. */
  datatype ClassRow = ClassRow(threshold: real, name: Json)

  /** The outcome of a classification: a class name, no class reached, or an exception. */
  datatype VelocityClass = Named(name: Json) | Stable | ClassError

  /** `cls.get('name', 'Unknown')`. */
  function ClassName(f: Dict): Json {
    if "name" in f then f["name"] else JStr("Unknown")
  }

  /**
   * What iterating over a configured table yields. Iterating an empty text or
   * dictionary yields nothing; any other value that is not a list raises
   * (not iterable, or it yields text on which `.get` raises).
   */
  function ClassList(table: Json): (r: Option<seq<Json>>)
    ensures table.JArr? ==> r == Some(table.items)
    ensures r.Some? && !table.JArr? ==> r == Some([])
  {
    match table
    case JArr(items) => Some(items)
    case JStr(s) => if s == "" then Some([]) else None
    case JObj(m) => if m == map[] then Some([]) else None
    case _ => None
  }

  /** The first row, in the given order, whose threshold the velocity reaches (`v >= threshold`). */
  function FirstReached(rows: seq<Keyed<ClassRow>>, v: real): (r: Option<nat>)
    ensures r.Some? ==> r.value < |rows| && v >= rows[r.value].item.threshold
    ensures forall i :: 0 <= i < |rows| && (r.None? || i < r.value) ==> v < rows[i].item.threshold
    decreases |rows|
  {
    if rows == [] then None
    else if v >= rows[0].item.threshold then Some(0)
    else match FirstReached(rows[1..], v)
      case None => None
      case Some(k) => Some(k + 1)
  }

  /** The rows of a table whose sort key and threshold are the same yearly figure. */
  predicate KeyIsThreshold(rows: seq<Keyed<ClassRow>>) {
    forall i :: 0 <= i < |rows| ==> rows[i].key == rows[i].item.threshold
  }

  /**
   * Scanning the table sorted fastest first returns the row with the largest
   * threshold the velocity reaches, and nothing exactly when it reaches none.
   */
  lemma FastestReachedRow(rows: seq<Keyed<ClassRow>>, v: real)
    requires KeyIsThreshold(rows)
    ensures var sorted := Sort(rows, true);
      (FirstReached(sorted, v).None? <==> forall i :: 0 <= i < |rows| ==> v < rows[i].key)
      && (FirstReached(sorted, v).Some? ==>
            exists i :: 0 <= i < |rows| && rows[i] == sorted[FirstReached(sorted, v).value] && rows[i].key <= v
                        && forall j :: 0 <= j < |rows| && rows[j].key <= v ==> rows[j].key <= rows[i].key)
  {
    var sorted := Sort(rows, true);
    SortKeepsKeyIsThreshold(rows);
    var found := FirstReached(sorted, v);
    if found.None? {
      NoneReachedInSort(rows, sorted, v);
    } else {
      FoundIsFastestReached(rows, sorted, v, found.value);
    }
  }

  lemma SortKeepsKeyIsThreshold(rows: seq<Keyed<ClassRow>>)
    requires KeyIsThreshold(rows)
    ensures KeyIsThreshold(Sort(rows, true))
    ensures Sorted(Sort(rows, true), true) && multiset(Sort(rows, true)) == multiset(rows)
  {
    var sorted := Sort(rows, true);
    SortSorts(rows, true);
    forall m | 0 <= m < |sorted| ensures sorted[m].key == sorted[m].item.threshold {
      assert sorted[m] in multiset(rows);
    }
  }

  lemma NoneReachedInSort(rows: seq<Keyed<ClassRow>>, sorted: seq<Keyed<ClassRow>>, v: real)
    requires KeyIsThreshold(sorted) && multiset(sorted) == multiset(rows)
    requires FirstReached(sorted, v).None?
    ensures forall i :: 0 <= i < |rows| ==> v < rows[i].key
  {
    forall i | 0 <= i < |rows| ensures v < rows[i].key {
      assert rows[i] in multiset(sorted);
    }
  }

  lemma FoundIsFastestReached(rows: seq<Keyed<ClassRow>>, sorted: seq<Keyed<ClassRow>>, v: real, k: nat)
    requires KeyIsThreshold(sorted) && multiset(sorted) == multiset(rows) && Sorted(sorted, true)
    requires FirstReached(sorted, v) == Some(k)
    ensures exists i :: 0 <= i < |rows| && rows[i] == sorted[k] && rows[i].key <= v
                        && forall j :: 0 <= j < |rows| && rows[j].key <= v ==> rows[j].key <= rows[i].key
  {
    assert sorted[k] in multiset(rows);
    var i :| 0 <= i < |rows| && rows[i] == sorted[k];
    forall m | 0 <= m < |sorted| && sorted[m].key <= v ensures sorted[m].key <= sorted[k].key {
      if m > k {
        assert InOrder(sorted[k].key, sorted[m].key, true);
      }
    }
    forall j | 0 <= j < |rows| && rows[j].key <= v ensures rows[j].key <= rows[i].key {
      assert rows[j] in multiset(sorted);
      var m :| 0 <= m < |sorted| && sorted[m] == rows[j];
    }
  }

  // ---- _classify_velocity_extended -------------------------------------------

  /** One year in seconds, the factor from mm/s to mm/year. */
  const SecondsPerYear: real := 31536000.0

  /** An entry of the built-in extended table (`mm_day` and `desc` are not read). */
  function ExtendedEntry(name: string, mmPerSecond: real, mmPerYear: real): Json {
    JObj(map["name" := JStr(name), "mm_s" := JNum(mmPerSecond), "mm_year" := JNum(mmPerYear)])
  }

  /** The table used when the configuration has no `GNSS_Classification`. */
  function ExtendedDefaultTable(): (r: seq<Json>)
    ensures |r| == 7
  {
    [ ExtendedEntry("Extremely Rapid", 5000.0, 157680000000.0),
      ExtendedEntry("Very Rapid", 50.0, 1576800000.0),
      ExtendedEntry("Rapid", 0.5, 15768000.0),
      ExtendedEntry("Moderate", 0.0006, 18921.6),
      ExtendedEntry("Slow", 0.00005, 1576.8),
      ExtendedEntry("Very Slow", 0.000001, 31.536),
      ExtendedEntry("Extremely Slow", 0.0, 0.0) ]
  }

  /**
   * The yearly threshold of an entry AS WRITTEN:
   * `x.get('mm_year', x.get('mm_s', 0) * 31536000)`. An `mm_giay` field is not
   * read. A non-dictionary entry or a non-numeric figure raises.
   */
  function YearThresholdAsWritten(entry: Json): (r: Option<real>)
    ensures r.Some? ==> entry.JObj?
    ensures entry.JObj? && "mm_year" !in entry.fields && "mm_s" !in entry.fields ==> r == Some(0.0)
    ensures !entry.JObj? ==> r.None?
  {
    if !entry.JObj? then None
    else
      var perSecond := if "mm_s" in entry.fields then Number(entry.fields["mm_s"]) else Some(0.0);
      if perSecond.None? then None
      else if "mm_year" in entry.fields then Number(entry.fields["mm_year"])
      else Some(perSecond.value * SecondsPerYear)
  }

  /**
   * The yearly threshold as evidently intended: as above, and an entry that
   * only has the `mm_giay` (mm per second) figure the station configuration
   * stores is converted to mm/year the same way as `mm_s`.
   */
  function YearThreshold(entry: Json): (r: Option<real>)
    ensures r.Some? ==> entry.JObj?
    ensures (entry.JObj? && "mm_year" !in entry.fields && "mm_s" !in entry.fields && "mm_giay" in entry.fields
             && entry.fields["mm_giay"].JNum?) ==>
              r == Some(entry.fields["mm_giay"].n * SecondsPerYear)
    ensures !entry.JObj? ==> r.None?
  {
    if !entry.JObj? then None
    else if "mm_year" in entry.fields || "mm_s" in entry.fields then YearThresholdAsWritten(entry)
    else if "mm_giay" in entry.fields then
      match Number(entry.fields["mm_giay"])
      case Some(g) => Some(g * SecondsPerYear)
      case None => None
    else Some(0.0)
  }

  /** The yearly threshold of an entry under the chosen rule. */
  function Threshold(entry: Json, intended: bool): Option<real> {
    if intended then YearThreshold(entry) else YearThresholdAsWritten(entry)
  }

  /** The rows of a table under a threshold rule; any entry the rule rejects makes the table raise. */
  function YearRows(entries: seq<Json>, intended: bool): (r: Option<seq<Keyed<ClassRow>>>)
    ensures r.Some? <==> forall i :: 0 <= i < |entries| ==> Threshold(entries[i], intended).Some?
    ensures r.Some? ==> |r.value| == |entries| && KeyIsThreshold(r.value)
    ensures r.Some? ==> forall i :: 0 <= i < |entries| ==>
      entries[i].JObj? && r.value[i].key == Threshold(entries[i], intended).value
      && r.value[i].item.name == ClassName(entries[i].fields)
  {
    if forall i :: 0 <= i < |entries| ==> Threshold(entries[i], intended).Some? then
      Some(seq(|entries|, i requires 0 <= i < |entries| && Threshold(entries[i], intended).Some? =>
        Keyed(Threshold(entries[i], intended).value,
              ClassRow(Threshold(entries[i], intended).value, ClassName(entries[i].fields)))))
    else None
  }

  /** `config.get('GNSS_Classification', [])`, replaced by the built-in table when falsy. */
  function ExtendedTable(config: Dict): (r: Json)
    ensures Truthy(r)
  {
    var t := Get(config, "GNSS_Classification");
    if Truthy(t) then t else JArr(ExtendedDefaultTable())
  }

  /** `_classify_velocity_extended` with the threshold rule chosen by `intended`; it has no handler, so errors propagate. */
  function ClassifyExtendedBy(velocityMmYear: real, config: Dict, intended: bool): (r: VelocityClass)
    ensures r == ClassError <==> ClassList(ExtendedTable(config)).None?
                                 || YearRows(ClassList(ExtendedTable(config)).value, intended).None?
  {
    match ClassList(ExtendedTable(config))
    case None => ClassError
    case Some(entries) =>
      match YearRows(entries, intended)
      case None => ClassError
      case Some(rows) =>
        var sorted := Sort(rows, true);
        match FirstReached(sorted, velocityMmYear)
        case None => Stable
        case Some(k) => Named(sorted[k].item.name)
  }

  /** `_classify_velocity_extended` as written. */
  function ClassifyVelocityExtendedAsWritten(velocityMmYear: real, config: Dict): VelocityClass {
    ClassifyExtendedBy(velocityMmYear, config, false)
  }

  /** `_classify_velocity_extended` with `mm_giay` tables read as intended (the long-term analysis with `intended`). */
  function ClassifyVelocityExtended(velocityMmYear: real, config: Dict): VelocityClass {
    ClassifyExtendedBy(velocityMmYear, config, true)
  }

  /**
   * The class returned is the one with the largest yearly threshold the
   * velocity reaches, and "Stable" is returned exactly when it reaches none.
   */
  lemma ExtendedPicksFastestReachedClass(velocityMmYear: real, config: Dict, intended: bool)
    requires ClassList(ExtendedTable(config)).Some?
    requires YearRows(ClassList(ExtendedTable(config)).value, intended).Some?
    ensures var rows := YearRows(ClassList(ExtendedTable(config)).value, intended).value;
      var r := ClassifyExtendedBy(velocityMmYear, config, intended);
      (r == Stable <==> forall i :: 0 <= i < |rows| ==> velocityMmYear < rows[i].key)
      && (r.Named? ==>
            exists i :: 0 <= i < |rows| && r.name == rows[i].item.name && rows[i].key <= velocityMmYear
                        && forall j :: 0 <= j < |rows| && rows[j].key <= velocityMmYear ==> rows[j].key <= rows[i].key)
  {
    var rows := YearRows(ClassList(ExtendedTable(config)).value, intended).value;
    FastestReachedRow(rows, velocityMmYear);
  }

  /** Unfolds the classification once the table's rows are known. */
  lemma ClassifyFromRows(v: real, config: Dict, intended: bool, rows: seq<Keyed<ClassRow>>)
    requires ClassList(ExtendedTable(config)).Some?
    requires YearRows(ClassList(ExtendedTable(config)).value, intended) == Some(rows)
    ensures ClassifyExtendedBy(v, config, intended) ==
      match FirstReached(Sort(rows, true), v)
      case None => Stable
      case Some(k) => Named(Sort(rows, true)[k].item.name)
  {
  }

  /**
   * As written, a station with the default configuration has every yearly
   * threshold at 0, so every velocity is "Extremely rapid".
   */
  lemma DefaultConfigClassifiesEverythingExtremelyRapid(velocityMmYear: real)
    requires velocityMmYear >= 0.0
    ensures ClassifyVelocityExtendedAsWritten(velocityMmYear, AdminRouter.DefaultStationConfig())
            == Named(JStr("Extremely rapid"))
  {
    var config := AdminRouter.DefaultStationConfig();
    DefaultConfigTable();
    var rows := DefaultRowsAsWritten();
    assert Sorted(rows, true);
    SortKeepsOrderedInput(rows, true);
    assert FirstReached(rows, velocityMmYear) == Some(0);
    ClassifyFromRows(velocityMmYear, config, false, rows);
  }

  /** As written, every row of the default table has threshold 0; the first is "Extremely rapid". */
  lemma DefaultRowsAsWritten() returns (rows: seq<Keyed<ClassRow>>)
    ensures YearRows(AdminRouter.DefaultClassification(), false) == Some(rows)
    ensures |rows| == 7 && rows[0].item.name == JStr("Extremely rapid")
    ensures forall i :: 0 <= i < |rows| ==> rows[i].key == 0.0 && rows[i].item.threshold == 0.0
  {
    var entries := AdminRouter.DefaultClassification();
    assert forall i :: 0 <= i < |entries| ==> Threshold(entries[i], false) == Some(0.0);
    rows := YearRows(entries, false).value;
    AdminRouter.DefaultClassificationFirst();
  }

  /** The rows of the default table read as intended: thresholds 5000 down to 0 mm/s, in mm/year. */
  lemma DefaultRowsAsIntended() returns (rows: seq<Keyed<ClassRow>>)
    ensures YearRows(AdminRouter.DefaultClassification(), true) == Some(rows)
    ensures |rows| == 7
    ensures rows[0].key == 5000.0 * SecondsPerYear && rows[0].item.name == JStr("Extremely rapid")
    ensures rows[1].key == 4000.0 * SecondsPerYear && rows[1].item.name == JStr("Very rapid")
    ensures rows[2].key == 2000.0 * SecondsPerYear && rows[2].item.name == JStr("Rapid")
    ensures rows[3].key == 1000.0 * SecondsPerYear && rows[3].item.name == JStr("Moderate")
    ensures rows[4].key == 0.000051 * SecondsPerYear && rows[4].item.name == JStr("Slow")
    ensures rows[5].key == 0.000001 * SecondsPerYear && rows[5].item.name == JStr("Very slow")
    ensures rows[6].key == 0.0 && rows[6].item.name == JStr("Extremely slow")
  {
    DefaultTableReadsAsIntended();
    DefaultIntendedRowValues();
    rows := DefaultIntendedRows();
  }

  /** A row `(name, mm_giay, m_giay, desc)` of the default table, read as intended. */
  function IntendedRow(c: (string, real, real, string)): Keyed<ClassRow> {
    Keyed(c.1 * SecondsPerYear, ClassRow(c.1 * SecondsPerYear, JStr(c.0)))
  }

  /** The rows of the default table, read as intended, in table order. */
  function DefaultIntendedRows(): seq<Keyed<ClassRow>> {
    var classes := AdminRouter.DefaultClassRows();
    seq(|classes|, i requires 0 <= i < |classes| => IntendedRow(classes[i]))
  }

  /** Read as intended, each entry of the default table gives its `mm_giay` in mm/year. */
  lemma DefaultTableReadsAsIntended()
    ensures YearRows(AdminRouter.DefaultClassification(), true) == Some(DefaultIntendedRows())
  {
    var entries := AdminRouter.DefaultClassification();
    var classes := AdminRouter.DefaultClassRows();
    forall i | 0 <= i < |entries|
      ensures Threshold(entries[i], true) == Some(classes[i].1 * SecondsPerYear)
      ensures ClassName(entries[i].fields) == JStr(classes[i].0)
    {
      assert entries[i] == AdminRouter.ClassEntry(classes[i].0, classes[i].1, classes[i].2, classes[i].3);
    }
    assert YearRows(entries, true).value == DefaultIntendedRows();
  }

  /** The thresholds and names of the default rows, read as intended. */
  lemma DefaultIntendedRowValues()
    ensures var rows := DefaultIntendedRows();
      |rows| == 7
      && rows[0].key == 5000.0 * SecondsPerYear && rows[0].item.name == JStr("Extremely rapid")
      && rows[1].key == 4000.0 * SecondsPerYear && rows[1].item.name == JStr("Very rapid")
      && rows[2].key == 2000.0 * SecondsPerYear && rows[2].item.name == JStr("Rapid")
      && rows[3].key == 1000.0 * SecondsPerYear && rows[3].item.name == JStr("Moderate")
      && rows[4].key == 0.000051 * SecondsPerYear && rows[4].item.name == JStr("Slow")
      && rows[5].key == 0.000001 * SecondsPerYear && rows[5].item.name == JStr("Very slow")
      && rows[6].key == 0.0 && rows[6].item.name == JStr("Extremely slow")
  {
  }


  /** The default configuration's table is the one `get_default_station_config` writes. */
  lemma DefaultConfigTable()
    ensures ClassList(ExtendedTable(AdminRouter.DefaultStationConfig())) == Some(AdminRouter.DefaultClassification())
  {
    AdminRouter.DefaultSections();
  }

  /** The row of the default table, read as intended, that the scan stops at. */
  lemma DefaultChosenRowAsIntended(v: real, rows: seq<Keyed<ClassRow>>)
    requires v >= 0.0
    requires |rows| == 7 && KeyIsThreshold(rows)
    requires rows[0].key == 5000.0 * SecondsPerYear && rows[1].key == 4000.0 * SecondsPerYear
    requires rows[2].key == 2000.0 * SecondsPerYear && rows[3].key == 1000.0 * SecondsPerYear
    requires rows[4].key == 0.000051 * SecondsPerYear && rows[5].key == 0.000001 * SecondsPerYear
    requires rows[6].key == 0.0
    requires forall j :: 1 <= j < 7 ==> rows[j].item.name != rows[0].item.name
    ensures var found := FirstReached(Sort(rows, true), v);
      found.Some?
      && (v < 0.000001 * SecondsPerYear ==> Sort(rows, true)[found.value] == rows[6])
      && (v >= 5000.0 * SecondsPerYear <==> Sort(rows, true)[found.value].item.name == rows[0].item.name)
  {
    FastestReachedRow(rows, v);
    var sorted := Sort(rows, true);
    assert rows[6].key <= v;
    var k := FirstReached(sorted, v).value;
    var i :| 0 <= i < 7 && rows[i] == sorted[k] && rows[i].key <= v
             && forall j :: 0 <= j < 7 && rows[j].key <= v ==> rows[j].key <= rows[i].key;
    if v < 0.000001 * SecondsPerYear {
      assert i == 6;
    }
    if v >= 5000.0 * SecondsPerYear {
      assert rows[0].key <= v;
      assert i == 0;
    } else {
      assert rows[i].key < 5000.0 * SecondsPerYear;
      assert i != 0;
    }
  }

  /**
   * Read as intended, the default table tells the bands apart: a station
   * slower than 1e-6 mm/s is "Extremely slow", and "Extremely rapid" is
   * reached exactly from 5000 mm/s.
   */
  lemma DefaultConfigClassifiesByBand(velocityMmYear: real)
    requires velocityMmYear >= 0.0
    ensures var r := ClassifyVelocityExtended(velocityMmYear, AdminRouter.DefaultStationConfig());
      (velocityMmYear < 0.000001 * SecondsPerYear ==> r == Named(JStr("Extremely slow")))
      && (r == Named(JStr("Extremely rapid")) <==> velocityMmYear >= 5000.0 * SecondsPerYear)
  {
    var rows := DefaultChosenClass(velocityMmYear);
    DefaultConfigTable();
    ClassifyFromRows(velocityMmYear, AdminRouter.DefaultStationConfig(), true, rows);
  }

  /** The name of the row the scan stops at, for the default table read as intended. */
  lemma DefaultChosenClass(v: real) returns (rows: seq<Keyed<ClassRow>>)
    requires v >= 0.0
    ensures YearRows(AdminRouter.DefaultClassification(), true) == Some(rows)
    ensures FirstReached(Sort(rows, true), v).Some?
    ensures v < 0.000001 * SecondsPerYear ==>
      Sort(rows, true)[FirstReached(Sort(rows, true), v).value].item.name == JStr("Extremely slow")
    ensures v >= 5000.0 * SecondsPerYear <==>
      Sort(rows, true)[FirstReached(Sort(rows, true), v).value].item.name == JStr("Extremely rapid")
  {
    rows := DefaultRowsAsIntended();
    DefaultChosenRowAsIntended(v, rows);
  }

  // ---- _classify_cruden_varnes -----------------------------------------------

  function CrudenEntry(name: string, min: real): Json {
    JObj(map["name" := JStr(name), "min" := JNum(min)])
  }

  /** The table used when the configuration has no `GNSS_Classification` key (thresholds in m/s). */
  function CrudenDefaultTable(): (r: seq<Json>)
    ensures |r| == 7
    ensures forall i :: 0 <= i < |r| ==>
      r[i].JObj? && "min" in r[i].fields && r[i].fields["min"].JNum? && "mm_giay" !in r[i].fields
  {
    var classes := CrudenClasses();
    seq(|classes|, i requires 0 <= i < |classes| => CrudenEntry(classes[i].0, classes[i].1))
  }

  /** The classes of the built-in table with their `min` speed in m/s, fastest first. */
  function CrudenClasses(): seq<(string, real)> {
    [ ("Extremely Rapid", 5.0), ("Very Rapid", 0.05), ("Rapid", 0.0005), ("Moderate", 0.00000021),
      ("Slow", 0.0000000016), ("Very Slow", 0.0000000005), ("Extremely Slow", 0.0) ]
  }

  /**
   * The sort key and threshold of an entry, in m/s: sorted by
   * `x.get('min', x.get('mm_giay', 0) / 1000.0)` (the inner default is
   * evaluated, and must divide, even when `min` is present), compared with
   * `mm_giay / 1000` when present, else `min`, else 0.
   */
  function CrudenRow(entry: Json): (r: Option<Keyed<ClassRow>>)
    ensures r.Some? <==> entry.JObj?
                         && ("mm_giay" in entry.fields ==> Number(entry.fields["mm_giay"]).Some?)
                         && ("min" in entry.fields ==> Number(entry.fields["min"]).Some?)
    ensures r.Some? ==> r.value.item.name == ClassName(entry.fields)
    ensures r.Some? && "mm_giay" !in entry.fields && "min" in entry.fields ==>
      r.value.key == Number(entry.fields["min"]).value && r.value.item.threshold == r.value.key
    ensures r.Some? && "mm_giay" in entry.fields ==>
      Number(entry.fields["mm_giay"]).Some?
      && r.value.item.threshold == Number(entry.fields["mm_giay"]).value / 1000.0
    ensures r.Some? && "mm_giay" !in entry.fields && "min" !in entry.fields ==>
      r.value.key == 0.0 && r.value.item.threshold == 0.0
  {
    if !entry.JObj? then None
    else
      var f := entry.fields;
      var perSecond := if "mm_giay" in f then Number(f["mm_giay"]) else Some(0.0);
      var min := if "min" in f then Number(f["min"]) else Some(0.0);
      if perSecond.None? || min.None? then None
      else
        var key := if "min" in f then min.value else perSecond.value / 1000.0;
        var threshold := if "mm_giay" in f then perSecond.value / 1000.0 else min.value;
        Some(Keyed(key, ClassRow(threshold, ClassName(f))))
  }

  function CrudenRows(entries: seq<Json>): (r: Option<seq<Keyed<ClassRow>>>)
    ensures r.Some? ==> |r.value| == |entries|
    ensures r.Some? ==> forall i :: 0 <= i < |entries| ==> CrudenRow(entries[i]) == Some(r.value[i])
    ensures r.Some? <==> forall i :: 0 <= i < |entries| ==> CrudenRow(entries[i]).Some?
  {
    if forall i :: 0 <= i < |entries| ==> CrudenRow(entries[i]).Some? then
      Some(seq(|entries|, i requires 0 <= i < |entries| && CrudenRow(entries[i]).Some? => CrudenRow(entries[i]).value))
    else None
  }

  /**
   * The threshold `velocity_ms` is compared with: `mm_giay / 1000` when
   * present, else `min`, else 0; None when that value is not a number.
   */
  function CrudenThreshold(f: Dict): (r: Option<real>)
    ensures "mm_giay" in f && f["mm_giay"].JNum? ==> r == Some(f["mm_giay"].n / 1000.0)
    ensures "mm_giay" !in f && "min" !in f ==> r == Some(0.0)
  {
    if "mm_giay" in f then
      match Number(f["mm_giay"])
      case Some(g) => Some(g / 1000.0)
      case None => None
    else if "min" in f then Number(f["min"])
    else Some(0.0)
  }

  /**
   * A table of one entry: `sorted` computes its key (the inner default must
   * divide) but compares nothing, so only the threshold must be a number.
   */
  function ClassifyCrudenSingle(entry: Json, velocity: Json): (r: VelocityClass)
    ensures r.Named? ==> entry.JObj? && r.name == ClassName(entry.fields)
  {
    if !entry.JObj? then ClassError
    else
      var f := entry.fields;
      if "mm_giay" in f && Number(f["mm_giay"]).None? then ClassError
      else match (CrudenThreshold(f), Number(velocity))
        case (Some(t), Some(v)) => if v >= t then Named(ClassName(f)) else Stable
        case _ => ClassError
  }

  /**
   * `_classify_cruden_varnes`: the first class, fastest first, whose
   * threshold the speed reaches; "Stable" when none does; "Unknown" when the
   * table or a comparison raises.
   */
  function ClassifyCrudenVarnes(velocity: Json, config: Dict): (r: VelocityClass)
    ensures "GNSS_Classification" !in config && Number(velocity).None? ==> r == ClassError
    ensures r.Named? ==> Number(velocity).Some?
  {
    var table := if "GNSS_Classification" in config then config["GNSS_Classification"]
                 else JArr(CrudenDefaultTable());
    match ClassList(table)
    case None => ClassError
    case Some(entries) =>
      if |entries| == 1 then ClassifyCrudenSingle(entries[0], velocity)
      else
        match CrudenRows(entries)
        case None => ClassError
        case Some(rows) =>
          if rows == [] then Stable
          else match Number(velocity)
            case None => ClassError
            case Some(v) =>
              var sorted := Sort(rows, true);
              match FirstReached(sorted, v)
              case None => Stable
              case Some(k) => Named(sorted[k].item.name)
  }

  /**
   * A configured table of one entry with a numeric `mm_giay` names that entry
   * exactly when the speed reaches `mm_giay / 1000`, whatever its `min` holds.
   */
  lemma CrudenSingleEntry(f: Dict, speed: real, config: Dict)
    requires "GNSS_Classification" in config && config["GNSS_Classification"] == JArr([JObj(f)])
    requires "mm_giay" in f && f["mm_giay"].JNum?
    ensures speed >= f["mm_giay"].n / 1000.0 ==> ClassifyCrudenVarnes(JNum(speed), config) == Named(ClassName(f))
    ensures speed < f["mm_giay"].n / 1000.0 ==> ClassifyCrudenVarnes(JNum(speed), config) == Stable
  {
    assert ClassList(config["GNSS_Classification"]) == Some([JObj(f)]);
  }

  /** Unfolds the classification of a number against the built-in table once its rows are known. */
  lemma CrudenFromRows(speed: real, rows: seq<Keyed<ClassRow>>)
    requires CrudenRows(CrudenDefaultTable()) == Some(rows)
    ensures ClassifyCrudenVarnes(JNum(speed), map[]) ==
      if rows == [] then Stable
      else match FirstReached(Sort(rows, true), speed)
        case None => Stable
        case Some(k) => Named(Sort(rows, true)[k].item.name)
  {
    assert ClassList(JArr(CrudenDefaultTable())) == Some(CrudenDefaultTable());
    assert Number(JNum(speed)) == Some(speed);
  }

  /** The rows of the built-in table: thresholds from 5 m/s down to 0, each its own sort key. */
  lemma CrudenDefaultRows() returns (rows: seq<Keyed<ClassRow>>)
    ensures CrudenRows(CrudenDefaultTable()) == Some(rows)
    ensures |rows| == 7 && KeyIsThreshold(rows)
    ensures rows[0] == Keyed(5.0, ClassRow(5.0, JStr("Extremely Rapid")))
    ensures rows[6] == Keyed(0.0, ClassRow(0.0, JStr("Extremely Slow")))
    ensures rows[1].key == 0.05 && rows[2].key == 0.0005 && rows[3].key == 0.00000021
            && rows[4].key == 0.0000000016 && rows[5].key == 0.0000000005
  {
    CrudenTableRows();
    rows := CrudenClassRows();
    var classes := CrudenClasses();
    assert forall i :: 0 <= i < 7 ==> rows[i] == CrudenClassRow(classes[i]);
  }

  /** The row an entry `(name, min)` of the built-in table yields. */
  function CrudenClassRow(c: (string, real)): Keyed<ClassRow> {
    Keyed(c.1, ClassRow(c.1, JStr(c.0)))
  }

  /** The rows of the built-in table, in table order. */
  function CrudenClassRows(): seq<Keyed<ClassRow>> {
    var classes := CrudenClasses();
    seq(|classes|, i requires 0 <= i < |classes| => CrudenClassRow(classes[i]))
  }

  /** The built-in table reads entry by entry as its classes' rows. */
  lemma CrudenTableRows()
    ensures CrudenRows(CrudenDefaultTable()) == Some(CrudenClassRows())
  {
    var classes := CrudenClasses();
    var entries := CrudenDefaultTable();
    forall i | 0 <= i < |entries|
      ensures CrudenRow(entries[i]) == Some(CrudenClassRow(classes[i]))
    {
      CrudenEntryRow(classes[i].0, classes[i].1);
    }
    var rows := CrudenRows(entries).value;
    assert rows == CrudenClassRows();
  }

  /** An entry of the built-in table is read with its `min` as both sort key and threshold. */
  lemma CrudenEntryRow(name: string, min: real)
    ensures CrudenRow(CrudenEntry(name, min)) == Some(Keyed(min, ClassRow(min, JStr(name))))
  {
    var f := CrudenEntry(name, min).fields;
    assert "mm_giay" !in f;
  }

  /** The row of the built-in table that the scan stops at. */
  lemma CrudenDefaultChosenRow(speed: real, rows: seq<Keyed<ClassRow>>)
    requires |rows| == 7 && KeyIsThreshold(rows)
    requires rows[0].key == 5.0 && rows[1].key == 0.05 && rows[2].key == 0.0005 && rows[3].key == 0.00000021
    requires rows[4].key == 0.0000000016 && rows[5].key == 0.0000000005 && rows[6].key == 0.0
    ensures var found := FirstReached(Sort(rows, true), speed);
      (speed < 0.0 ==> found.None?)
      && (0.0 <= speed < 0.0000000005 ==> found.Some? && Sort(rows, true)[found.value] == rows[6])
      && (speed >= 5.0 ==> found.Some? && Sort(rows, true)[found.value] == rows[0])
  {
    FastestReachedRow(rows, speed);
    var sorted := Sort(rows, true);
    var found := FirstReached(sorted, speed);
    if speed >= 0.0 {
      assert rows[6].key <= speed;
      var i :| 0 <= i < 7 && rows[i] == sorted[found.value] && rows[i].key <= speed
               && forall j :: 0 <= j < 7 && rows[j].key <= speed ==> rows[j].key <= rows[i].key;
      if speed < 0.0000000005 {
        assert i == 6;
      }
      if speed >= 5.0 {
        assert rows[0].key <= speed;
        assert i == 0;
      }
    }
  }

  /** With the built-in table a negative speed is "Stable", a standing station "Extremely Slow", 5 m/s and above "Extremely Rapid". */
  lemma CrudenDefaultTableBands(speed: real)
    ensures speed < 0.0 ==> ClassifyCrudenVarnes(JNum(speed), map[]) == Stable
    ensures 0.0 <= speed < 0.0000000005 ==> ClassifyCrudenVarnes(JNum(speed), map[]) == Named(JStr("Extremely Slow"))
    ensures speed >= 5.0 ==> ClassifyCrudenVarnes(JNum(speed), map[]) == Named(JStr("Extremely Rapid"))
  {
    var rows := CrudenDefaultRows();
    CrudenFromRows(speed, rows);
    CrudenDefaultChosenRow(speed, rows);
  }

  /** How the analysers report a class: "Stable", or "Unknown" after an exception. */
  function ClassLabel(c: VelocityClass): Json {
    match c
    case Named(n) => n
    case Stable => JStr("Stable")
    case ClassError => JStr("Unknown")
  }

  // ---------------------------------------------------------------------------
  // Threshold alerts on the newest sample
  // ---------------------------------------------------------------------------

  /** An alert dictionary `{level, category, message, details}`; the message text is not modelled. */
  datatype SensorAlert = SensorAlert(level: AlertLevel, category: string, details: Dict)

  /** `recent_data[-1]['data']` when it is a dictionary; anything else raises on the next `.get`. */
  function LatestData(recent: seq<Json>): (r: Option<Dict>)
    ensures recent == [] ==> r == None
  {
    if recent == [] then None
    else
      var last := recent[|recent| - 1];
      if last.JObj? && "data" in last.fields && last.fields["data"].JObj?
      then Some(last.fields["data"].fields) else None
  }

  /** `data.get(key, 0.0)`. */
  function Reading(data: Dict, key: string): (r: Json)
    ensures key !in data ==> r == JNum(0.0)
  {
    if key in data then data[key] else JNum(0.0)
  }

  /** The rank of an analyser's outcome: nothing, WARNING, CRITICAL. */
  function AlertRank(level: Option<AlertLevel>): int {
    match level
    case None => 0
    case Some(Info) => 0
    case Some(Warning) => 1
    case Some(Critical) => 2
  }

  /** The `>= critical`, then `>= warning` ladder of the displacement, rain and water analysers; INFO is not returned. */
  function LevelAtLeast(x: real, warning: real, critical: real): (r: Option<AlertLevel>)
    ensures r == Some(Critical) <==> x >= critical
    ensures r == Some(Warning) <==> warning <= x < critical
    ensures r == None <==> x < warning && x < critical
  {
    if x >= critical then Some(Critical) else if x >= warning then Some(Warning) else None
  }

  /** A larger reading never gives a lower alert. */
  lemma LevelAtLeastMonotone(x: real, y: real, warning: real, critical: real)
    requires x <= y
    ensures AlertRank(LevelAtLeast(x, warning, critical)) <= AlertRank(LevelAtLeast(y, warning, critical))
  {
  }

  function AlertOf(level: Option<AlertLevel>, category: string, details: Dict): (r: Option<SensorAlert>)
    ensures r.Some? <==> level.Some?
    ensures r.Some? ==> r.value.level == level.value && r.value.category == category
  {
    match level
    case None => None
    case Some(l) => Some(SensorAlert(l, category, details))
  }

  /**
   * `analyze_gnss_displacement`: the length of `(pos_e, pos_n, pos_u)` against
   * the `Water` section's `warning_threshold`/`critical_threshold` (0.15/0.30),
   * with the Cruden & Varnes class of `speed_2d` in the details.
   */
  function AnalyzeGnssDisplacement(recent: seq<Json>, config: Dict, norm: (real, real, real) -> real)
    : (r: Option<SensorAlert>)
    ensures recent == [] || LatestData(recent).None? ==> r == None
    ensures r.Some? ==> r.value.category == "displacement" && IsDangerous(r.value.level)
  {
    match LatestData(recent)
    case None => None
    case Some(d) =>
      var e := Number(Reading(d, "pos_e"));
      var n := Number(Reading(d, "pos_n"));
      var u := Number(Reading(d, "pos_u"));
      if e.None? || n.None? || u.None? then None
      else
        var displacement := norm(e.value, n.value, u.value);
        var warning := GetCfg(config, "Water", "warning_threshold", 0.15);
        var critical := GetCfg(config, "Water", "critical_threshold", 0.30);
        var speed := Reading(d, "speed_2d");
        var details := map["displacement_m" := JNum(displacement), "velocity_ms" := speed,
                            "class" := ClassLabel(ClassifyCrudenVarnes(speed, config))];
        AlertOf(LevelAtLeast(displacement, warning, critical), "displacement", details)
  }

  /** The displacement alert in terms of the length of the newest position and the `Water` thresholds. */
  lemma DisplacementLevels(recent: seq<Json>, config: Dict, norm: (real, real, real) -> real, e: real, n: real, u: real)
    requires LatestData(recent).Some?
    requires Number(Reading(LatestData(recent).value, "pos_e")) == Some(e)
    requires Number(Reading(LatestData(recent).value, "pos_n")) == Some(n)
    requires Number(Reading(LatestData(recent).value, "pos_u")) == Some(u)
    ensures var warning := GetCfg(config, "Water", "warning_threshold", 0.15);
      var critical := GetCfg(config, "Water", "critical_threshold", 0.30);
      var r := AnalyzeGnssDisplacement(recent, config, norm);
      (r.Some? && r.value.level == Critical <==> norm(e, n, u) >= critical)
      && (r.Some? && r.value.level == Warning <==> warning <= norm(e, n, u) < critical)
      && (r.Some? ==> r.value.details["velocity_ms"] == Reading(LatestData(recent).value, "speed_2d"))
  {
  }

  /** `analyze_rainfall`: `intensity_mm_h` against 25/50 mm/h by default; the watch band (10) stays INFO and returns nothing. */
  function AnalyzeRainfall(recent: seq<Json>, config: Dict): (r: Option<SensorAlert>)
    ensures recent == [] || LatestData(recent).None? ==> r == None
    ensures r.Some? ==> r.value.category == "rainfall" && IsDangerous(r.value.level)
    ensures r.Some? ==> Number(Reading(LatestData(recent).value, "intensity_mm_h")).Some?
  {
    match LatestData(recent)
    case None => None
    case Some(d) =>
      var raw := Reading(d, "intensity_mm_h");
      match Number(raw)
      case None => None
      case Some(intensity) =>
        var warning := GetCfg(config, "RainAlerting", "rain_intensity_warning_threshold", 25.0);
        var critical := GetCfg(config, "RainAlerting", "rain_intensity_critical_threshold", 50.0);
        AlertOf(LevelAtLeast(intensity, warning, critical), "rainfall", map["intensity" := raw])
  }

  /** The rain alert in terms of the newest intensity and the configured thresholds. */
  lemma RainfallLevels(recent: seq<Json>, config: Dict, intensity: real)
    requires LatestData(recent).Some? && Number(Reading(LatestData(recent).value, "intensity_mm_h")) == Some(intensity)
    ensures var warning := GetCfg(config, "RainAlerting", "rain_intensity_warning_threshold", 25.0);
      var critical := GetCfg(config, "RainAlerting", "rain_intensity_critical_threshold", 50.0);
      var r := AnalyzeRainfall(recent, config);
      (r.Some? && r.value.level == Critical <==> intensity >= critical)
      && (r.Some? && r.value.level == Warning <==> warning <= intensity < critical)
      && (r.None? <==> intensity < warning && intensity < critical)
  {
  }

  /**
   * `analyze_tilt`: `total_accel` above the shock threshold (20 m/s² when not
   * configured) is CRITICAL and takes precedence over a roll or pitch beyond
   * 30 degrees, which is WARNING.
   */
  function AnalyzeTilt(recent: seq<Json>, config: Dict): (r: Option<SensorAlert>)
    ensures recent == [] || LatestData(recent).None? ==> r == None
    ensures r.Some? ==> r.value.category == "imu_tilt_shock" && IsDangerous(r.value.level)
  {
    match LatestData(recent)
    case None => None
    case Some(d) =>
      var accel := Number(Reading(d, "total_accel"));
      var roll := Number(Reading(d, "roll"));
      var pitch := Number(Reading(d, "pitch"));
      if accel.None? || roll.None? || pitch.None? then None
      else
        var shock := GetCfg(config, "ImuAlerting", "shock_threshold_ms2", 20.0);
        var tilt := Max(Abs(roll.value), Abs(pitch.value));
        var level := if accel.value > shock then Some(Critical)
                     else if tilt > TiltThreshold then Some(Warning) else None;
        AlertOf(level, "imu_tilt_shock", map["accel" := Reading(d, "total_accel"), "tilt" := JNum(tilt)])
  }

  const TiltThreshold: real := 30.0

  function Abs(x: real): real { if x < 0.0 then -x else x }

  function Max(a: real, b: real): real { if a < b then b else a }

  /** Shock decides before tilt; tilt in either direction counts. */
  lemma TiltLevels(recent: seq<Json>, config: Dict, accel: real, roll: real, pitch: real)
    requires LatestData(recent).Some?
    requires Number(Reading(LatestData(recent).value, "total_accel")) == Some(accel)
    requires Number(Reading(LatestData(recent).value, "roll")) == Some(roll)
    requires Number(Reading(LatestData(recent).value, "pitch")) == Some(pitch)
    ensures var shock := GetCfg(config, "ImuAlerting", "shock_threshold_ms2", 20.0);
      var r := AnalyzeTilt(recent, config);
      (r.Some? && r.value.level == Critical <==> accel > shock)
      && (r.Some? && r.value.level == Warning <==>
            accel <= shock && (roll > 30.0 || roll < -30.0 || pitch > 30.0 || pitch < -30.0))
  {
  }

  /**
   * `analyze_water_level`: `water_level` against the lower-case `water`
   * section's `warning_level`/`critical_level`, 999 m when absent.
   */
  function AnalyzeWaterLevel(recent: seq<Json>, config: Dict): (r: Option<SensorAlert>)
    ensures recent == [] || LatestData(recent).None? ==> r == None
    ensures r.Some? ==> r.value.category == "water_level" && IsDangerous(r.value.level)
    ensures r.Some? ==> Number(Reading(LatestData(recent).value, "water_level")).Some?
  {
    match LatestData(recent)
    case None => None
    case Some(d) =>
      var raw := Reading(d, "water_level");
      match Number(raw)
      case None => None
      case Some(level) =>
        var warning := GetCfg(config, "water", "warning_level", 999.0);
        var critical := GetCfg(config, "water", "critical_level", 999.0);
        AlertOf(LevelAtLeast(level, warning, critical), "water_level", map["water_level" := raw])
  }

  /**
   * The default station configuration has a `Water` section but no `water`
   * section, so a station using it raises a water alert only at 999 m, and
   * then a CRITICAL one.
   */
  lemma DefaultConfigWaterAlertsOnlyAt999(recent: seq<Json>, level: real)
    requires LatestData(recent).Some? && Number(Reading(LatestData(recent).value, "water_level")) == Some(level)
    ensures var r := AnalyzeWaterLevel(recent, AdminRouter.DefaultStationConfig());
      (r.Some? <==> level >= 999.0) && (r.Some? ==> r.value.level == Critical)
  {
    DefaultConfigThresholds(0.15, 0.30, 20.0);
  }

  /** A higher newest reading never lowers the rain or water alert. */
  lemma ReadingMonotone(recent1: seq<Json>, recent2: seq<Json>, config: Dict, key: string, x: real, y: real)
    requires key == "intensity_mm_h" || key == "water_level"
    requires LatestData(recent1).Some? && Number(Reading(LatestData(recent1).value, key)) == Some(x)
    requires LatestData(recent2).Some? && Number(Reading(LatestData(recent2).value, key)) == Some(y)
    requires x <= y
    ensures key == "intensity_mm_h" ==>
      AlertRank(LevelOf(AnalyzeRainfall(recent1, config))) <= AlertRank(LevelOf(AnalyzeRainfall(recent2, config)))
    ensures key == "water_level" ==>
      AlertRank(LevelOf(AnalyzeWaterLevel(recent1, config))) <= AlertRank(LevelOf(AnalyzeWaterLevel(recent2, config)))
  {
    if key == "intensity_mm_h" {
      LevelAtLeastMonotone(x, y, GetCfg(config, "RainAlerting", "rain_intensity_warning_threshold", 25.0),
                           GetCfg(config, "RainAlerting", "rain_intensity_critical_threshold", 50.0));
    } else {
      LevelAtLeastMonotone(x, y, GetCfg(config, "water", "warning_level", 999.0),
                           GetCfg(config, "water", "critical_level", 999.0));
    }
  }

  function LevelOf(a: Option<SensorAlert>): Option<AlertLevel> {
    match a
    case None => None
    case Some(alert) => Some(alert.level)
  }

  // ---------------------------------------------------------------------------
  // Combined assessment
  // ---------------------------------------------------------------------------

  datatype CombinedAssessment = CombinedAssessment(overallRisk: Risk, activeAlerts: seq<SensorAlert>)

  /** `[a for a in alerts if a]`: the alerts that are present, in order. */
  function Present(alerts: seq<Option<SensorAlert>>): (r: seq<SensorAlert>)
    ensures |r| <= |alerts|
    decreases |alerts|
  {
    if alerts == [] then []
    else
      var last := alerts[|alerts| - 1];
      Present(alerts[..|alerts| - 1]) + (if last.Some? then [last.value] else [])
  }

  /** An alert is listed exactly when it was passed in. */
  lemma {:induction false} PresentMembers(alerts: seq<Option<SensorAlert>>, a: SensorAlert)
    ensures a in Present(alerts) <==> Some(a) in alerts
    decreases |alerts|
  {
    if alerts != [] {
      var init := alerts[..|alerts| - 1];
      PresentMembers(init, a);
      assert alerts == init + [alerts[|alerts| - 1]];
    }
  }

  /** Filtering keeps order: the alerts of a concatenation are the alerts of each part, in turn. */
  lemma {:induction false} PresentAppend(a: seq<Option<SensorAlert>>, b: seq<Option<SensorAlert>>)
    ensures Present(a + b) == Present(a) + Present(b)
    decreases |b|
  {
    if b != [] {
      var b' := b[..|b| - 1];
      PresentAppend(a, b');
      var last := b[|b| - 1];
      var tail := if last.Some? then [last.value] else [];
      assert (a + b)[..|a + b| - 1] == a + b';
      assert (a + b)[|a + b| - 1] == last;
      assert Present(a + b) == Present(a + b') + tail;
      assert Present(b) == Present(b') + tail;
      assert Present(a) + Present(b') + tail == Present(a) + (Present(b') + tail);
    } else {
      assert a + b == a;
    }
  }

  /** `sum(1 for a in alerts if a['level'] == level)`. */
  function Count(alerts: seq<SensorAlert>, level: AlertLevel): (n: nat)
    ensures n <= |alerts|
    ensures n == 0 <==> forall i :: 0 <= i < |alerts| ==> alerts[i].level != level
    decreases |alerts|
  {
    if alerts == [] then 0
    else Count(alerts[..|alerts| - 1], level) + (if alerts[|alerts| - 1].level == level then 1 else 0)
  }

  /** `generate_combined_risk_assessment`. */
  function CombinedRisk(gnss: Option<SensorAlert>, rain: Option<SensorAlert>, water: Option<SensorAlert>,
                        imu: Option<SensorAlert>): (r: CombinedAssessment)
    ensures r.activeAlerts == Present([gnss, rain, water, imu])
    ensures r.overallRisk == Extreme <==> exists i :: 0 <= i < |r.activeAlerts| && r.activeAlerts[i].level == Critical
    ensures r.overallRisk == High <==> Count(r.activeAlerts, Critical) == 0 && Count(r.activeAlerts, Warning) >= 2
    ensures r.overallRisk == Medium <==> Count(r.activeAlerts, Critical) == 0 && Count(r.activeAlerts, Warning) == 1
    ensures r.overallRisk == Low <==> Count(r.activeAlerts, Critical) == 0 && Count(r.activeAlerts, Warning) == 0
  {
    var alerts := Present([gnss, rain, water, imu]);
    var critical := Count(alerts, Critical);
    var warning := Count(alerts, Warning);
    var risk := if critical >= 1 then Extreme else if warning >= 2 then High
                else if warning == 1 then Medium else Low;
    CombinedAssessment(risk, alerts)
  }

  /** Present alerts are listed in argument order; with none the station is LOW. */
  lemma CombinedAlertsInOrder(gnss: Option<SensorAlert>, rain: Option<SensorAlert>, water: Option<SensorAlert>,
                              imu: Option<SensorAlert>)
    ensures CombinedRisk(gnss, rain, water, imu).activeAlerts
            == Present([gnss]) + Present([rain]) + Present([water]) + Present([imu])
    ensures gnss.None? && rain.None? && water.None? && imu.None? ==>
      CombinedRisk(gnss, rain, water, imu) == CombinedAssessment(Low, [])
  {
    PresentOfFour(gnss, rain, water, imu);
  }

  lemma PresentSingle(a: Option<SensorAlert>)
    ensures Present([a]) == if a.Some? then [a.value] else []
  {
    assert [a][..0] == [];
  }

  lemma PresentOfFour(a: Option<SensorAlert>, b: Option<SensorAlert>, c: Option<SensorAlert>, d: Option<SensorAlert>)
    ensures Present([a, b, c, d]) == Present([a]) + Present([b]) + Present([c]) + Present([d])
  {
    assert [a, b, c, d] == [a, b, c] + [d];
    assert [a, b, c] == [a, b] + [c];
    assert [a, b] == [a] + [b];
    PresentAppend([a, b, c], [d]);
    PresentAppend([a, b], [c]);
    PresentAppend([a], [b]);
    PresentSingle(a);
    PresentSingle(b);
    PresentSingle(c);
    PresentSingle(d);
  }

  /**
   * Over the same analyser alerts the combined rule is at least as severe as
   * the stored-alert rule of the station endpoints (one WARNING fewer reaches
   * HIGH, one CRITICAL reaches EXTREME).
   */
  lemma CombinedAtLeastStoredAlertRule(gnss: Option<SensorAlert>, rain: Option<SensorAlert>,
                                       water: Option<SensorAlert>, imu: Option<SensorAlert>)
    ensures var r := CombinedRisk(gnss, rain, water, imu);
      Rank(MainApi.RiskFromCounts(Count(r.activeAlerts, Critical), Count(r.activeAlerts, Warning)))
        <= Rank(r.overallRisk)
  {
  }

  // ---------------------------------------------------------------------------
  // Long-term analysis
  // ---------------------------------------------------------------------------

  datatype Trend = Accelerating | Steady | Decelerating

  /**
   * The `speed_2d` of every point for which `'speed_2d' in point['data']`
   * holds. On text that is a substring test and on a list a membership test,
   * so text or a list without it skips the point, while one with it makes
   * `.get` raise; `None` when a point, its `in` test or its speed would raise.
   */
  function Speeds(points: seq<Json>): (r: Option<seq<real>>)
    ensures r.Some? ==> |r.value| <= |points|
    decreases |points|
  {
    if points == [] then Some([])
    else
      var init := Speeds(points[..|points| - 1]);
      var p := points[|points| - 1];
      if init.None? || !p.JObj? || "data" !in p.fields then None
      else match Contains(p.fields["data"], "speed_2d")
        case Err(_) => None
        case Ok(false) => init
        case Ok(true) =>
          if !p.fields["data"].JObj? then None
          else match Number(p.fields["data"].fields["speed_2d"])
            case None => None
            case Some(v) => Some(init.value + [v])
  }

  /** A point whose `data` the `in` test rejects without raising. */
  predicate SkippedPoint(p: Json) {
    p.JObj? && "data" in p.fields && Contains(p.fields["data"], "speed_2d") == Ok(false)
  }

  /**
   * A point whose `data` is a dict, text or list without "speed_2d" leaves
   * the speeds as they are, wherever it stands in the series.
   */
  lemma {:induction false} SkippedPointLeavesSpeeds(before: seq<Json>, p: Json, after: seq<Json>)
    requires SkippedPoint(p)
    ensures Speeds(before + [p] + after) == Speeds(before + after)
    decreases |after|
  {
    if after == [] {
      assert (before + [p] + after)[..|before|] == before;
      assert before + after == before;
    } else {
      var init := after[..|after| - 1];
      SkippedPointLeavesSpeeds(before, p, init);
      assert (before + [p] + after)[..|before| + |after|] == before + [p] + init;
      assert (before + after)[..|before| + |after| - 1] == before + init;
      assert (before + [p] + after)[|before| + |after|] == after[|after| - 1];
      assert (before + after)[|before| + |after| - 1] == after[|after| - 1];
    }
  }

  /** Text data holding "speed_2d" makes `.get` raise, so the speeds cannot be read. */
  lemma {:induction false} TextWithSpeedKeyRaises(before: seq<Json>, p: Json, after: seq<Json>)
    requires p.JObj? && "data" in p.fields && p.fields["data"].JStr?
    requires ContainsText(p.fields["data"].s, "speed_2d")
    ensures Speeds(before + [p] + after).None?
    decreases |after|
  {
    if after == [] {
      assert (before + [p] + after)[..|before|] == before;
    } else {
      TextWithSpeedKeyRaises(before, p, after[..|after| - 1]);
      assert (before + [p] + after)[..|before| + |after|] == before + [p] + after[..|after| - 1];
    }
  }

  /**
   * `_detect_trend`: the least-squares slope of the speeds, given as
   * `slope`, above 0.0001 is accelerating and below -0.0001 decelerating; fewer
   * than 5 points or 5 speeds, or an exception, is "stable".
   */
  function DetectTrend(points: seq<Json>, slope: seq<real> -> real): (r: Trend)
    ensures |points| < 5 ==> r == Steady
    ensures r != Steady ==> Speeds(points).Some? && |Speeds(points).value| >= 5
    ensures r == Accelerating ==> slope(Speeds(points).value) > 0.0001
    ensures r == Decelerating ==> slope(Speeds(points).value) < -0.0001
    ensures |points| >= 5 && Speeds(points).Some? && |Speeds(points).value| >= 5 ==>
      && (r == Accelerating <==> slope(Speeds(points).value) > 0.0001)
      && (r == Decelerating <==> slope(Speeds(points).value) < -0.0001)
      && (r == Steady <==> -0.0001 <= slope(Speeds(points).value) <= 0.0001)
    ensures Speeds(points).None? || |Speeds(points).value| < 5 ==> r == Steady
  {
    if |points| < 5 then Steady
    else match Speeds(points)
      case None => Steady
      case Some(speeds) =>
        if |speeds| < 5 then Steady
        else
          var s := slope(speeds);
          if s > 0.0001 then Accelerating else if s < -0.0001 then Decelerating else Steady
  }

  /**
   * `_assess_long_term_risk`: above 1000 mm/year EXTREME, above 100 HIGH,
   * above 16 MEDIUM, else LOW; the first two thresholds drop to 800 and 80
   * while accelerating.
   */
  function AssessLongTermRisk(velocityMmYear: real, trend: Trend): (r: Risk)
    ensures r != Unknown
    ensures trend != Accelerating ==>
      (r == Extreme <==> velocityMmYear > 1000.0)
      && (r == High <==> 100.0 < velocityMmYear <= 1000.0)
      && (r == Medium <==> 16.0 < velocityMmYear <= 100.0)
      && (r == Low <==> velocityMmYear <= 16.0)
    ensures trend == Accelerating ==>
      (r == Extreme <==> velocityMmYear > 800.0)
      && (r == High <==> 80.0 < velocityMmYear <= 800.0)
      && (r == Medium <==> 16.0 < velocityMmYear <= 80.0)
      && (r == Low <==> velocityMmYear <= 16.0)
  {
    var scale := if trend == Accelerating then 0.8 else 1.0;
    var high := 1000.0 * scale;
    var medium := 100.0 * scale;
    if velocityMmYear > high then Extreme
    else if velocityMmYear > medium then High
    else if velocityMmYear > 16.0 then Medium
    else Low
  }

  /** A faster station never gets a lower long-term risk. */
  lemma LongTermRiskMonotone(v1: real, v2: real, trend: Trend)
    requires v1 <= v2
    ensures Rank(AssessLongTermRisk(v1, trend)) <= Rank(AssessLongTermRisk(v2, trend))
  {
  }

  /** Acceleration never lowers the long-term risk. */
  lemma AccelerationNeverLowersRisk(v: real, trend: Trend)
    ensures Rank(AssessLongTermRisk(v, trend)) <= Rank(AssessLongTermRisk(v, Accelerating))
  {
  }

  datatype LongTermAnalysis = LongTermAnalysis(
    totalDisplacementMm: real, velocityMmYear: real, velocityMmDay: real, velocityMmSecond: real,
    classification: VelocityClass, trend: Trend, durationDays: real, startTimestamp: real, endTimestamp: real)

  datatype LongTermResult = InsufficientData | AnalysisError | Success(analysis: LongTermAnalysis, risk: Risk)

  /** `x['timestamp']` of every point, as sort keys; a missing or non-numeric timestamp raises. */
  function Timestamps(points: seq<Json>): (r: Option<seq<Keyed<Json>>>)
    ensures r.Some? ==> |r.value| == |points|
    ensures r.Some? ==> forall i :: 0 <= i < |points| ==>
      r.value[i].item == points[i] && points[i].JObj? && "timestamp" in points[i].fields
      && Number(points[i].fields["timestamp"]) == Some(r.value[i].key)
    decreases |points|
  {
    if points == [] then Some([])
    else
      var init := Timestamps(points[..|points| - 1]);
      var p := points[|points| - 1];
      if init.None? || !p.JObj? || "timestamp" !in p.fields || Number(p.fields["timestamp"]).None? then None
      else Some(init.value + [Keyed(Number(p.fields["timestamp"]).value, p)])
  }

  /** `last_data.get(key, 0) - first_data.get(key, 0)`. */
  function Delta(first: Json, last: Json, key: string): Option<real> {
    if !first.JObj? || !last.JObj? || "data" !in first.fields || "data" !in last.fields
       || !first.fields["data"].JObj? || !last.fields["data"].JObj? then None
    else
      var a := Number(Reading0(first.fields["data"].fields, key));
      var b := Number(Reading0(last.fields["data"].fields, key));
      if a.None? || b.None? then None else Some(b.value - a.value)
  }

  /** `data.get(key, 0)`. */
  function Reading0(data: Dict, key: string): Json {
    if key in data then data[key] else JNum(0.0)
  }

  /**
   * `analyze_long_term_velocity` (rounding left out): fewer than 2 points or a
   * span under 0.1 day is "insufficient_data"; otherwise the displacement
   * between the earliest and the latest sample over the span, classified,
   * with its trend and risk. `intended` chooses the threshold rule of the
   * class table: `false` is the code as written, `true` reads `mm_giay`.
   * `dated` holds of the timestamps `datetime.fromtimestamp` accepts (its
   * range depends on the platform and the local time zone).
   */
  function AnalyzeLongTermVelocity(points: seq<Json>, config: Dict, norm: (real, real, real) -> real,
                                   slope: seq<real> -> real, dated: real -> bool, intended: bool): (r: LongTermResult)
    ensures r == InsufficientData <==>
      |points| < 2
      || (Timestamps(points).Some?
          && var sorted := Sort(Timestamps(points).value, false);
             (sorted[|sorted| - 1].key - sorted[0].key) / 86400.0 < 0.1)
    ensures r.Success? ==> r.analysis.durationDays >= 0.1
                           && r.risk == AssessLongTermRisk(r.analysis.velocityMmYear, r.analysis.trend)
                           && r.analysis.classification != ClassError
    ensures r.Success? ==> r.analysis.classification == ClassifyExtendedBy(r.analysis.velocityMmYear, config, intended)
    ensures r.Success? ==> dated(r.analysis.startTimestamp) && dated(r.analysis.endTimestamp)
  {
    if |points| < 2 then InsufficientData
    else match Timestamps(points)
      case None => AnalysisError
      case Some(keyed) =>
        var sorted := Sort(keyed, false);
        var durationDays := (sorted[|sorted| - 1].key - sorted[0].key) / 86400.0;
        if durationDays < 0.1 then InsufficientData
        else AnalyzeSpan(sorted, durationDays, config, norm, slope, dated, intended)
  }

  /**
   * Steps 5 to 9 of the long-term analysis, over the samples sorted by time,
   * and the dates of the first and the last sample, which raise for a
   * timestamp out of `fromtimestamp`'s range.
   */
  function AnalyzeSpan(sorted: seq<Keyed<Json>>, durationDays: real, config: Dict,
                       norm: (real, real, real) -> real, slope: seq<real> -> real, dated: real -> bool,
                       intended: bool): (r: LongTermResult)
    requires |sorted| >= 2 && durationDays >= 0.1
    ensures r != InsufficientData
    ensures r.Success? ==> r.analysis.durationDays == durationDays
                           && r.analysis.startTimestamp == sorted[0].key
                           && r.analysis.endTimestamp == sorted[|sorted| - 1].key
                           && r.risk == AssessLongTermRisk(r.analysis.velocityMmYear, r.analysis.trend)
                           && r.analysis.classification != ClassError
    ensures r.Success? ==> r.analysis.classification == ClassifyExtendedBy(r.analysis.velocityMmYear, config, intended)
    ensures r == AnalysisError <==>
      Delta(sorted[0].item, sorted[|sorted| - 1].item, "pos_e").None?
      || Delta(sorted[0].item, sorted[|sorted| - 1].item, "pos_n").None?
      || Delta(sorted[0].item, sorted[|sorted| - 1].item, "pos_u").None?
      || ClassifyExtendedBy(
           norm(Delta(sorted[0].item, sorted[|sorted| - 1].item, "pos_e").value,
                Delta(sorted[0].item, sorted[|sorted| - 1].item, "pos_n").value,
                Delta(sorted[0].item, sorted[|sorted| - 1].item, "pos_u").value) / durationDays * 1000.0 * 365.0,
           config, intended) == ClassError
      || !dated(sorted[0].key) || !dated(sorted[|sorted| - 1].key)
  {
    var first := sorted[0];
    var last := sorted[|sorted| - 1];
    var e := Delta(first.item, last.item, "pos_e");
    var n := Delta(first.item, last.item, "pos_n");
    var u := Delta(first.item, last.item, "pos_u");
    if e.None? || n.None? || u.None? then AnalysisError
    else
      var displacementM := norm(e.value, n.value, u.value);
      var metresPerDay := displacementM / durationDays;
      var mmPerDay := metresPerDay * 1000.0;
      var mmPerYear := mmPerDay * 365.0;
      var mmPerSecond := metresPerDay / 86400.0 * 1000.0;
      var classification := ClassifyExtendedBy(mmPerYear, config, intended);
      if classification == ClassError || !dated(first.key) || !dated(last.key) then AnalysisError
      else
        var trend := DetectTrend(seq(|sorted|, i requires 0 <= i < |sorted| => sorted[i].item), slope);
        var analysis := LongTermAnalysis(displacementM * 1000.0, mmPerYear, mmPerDay, mmPerSecond,
                                         classification, trend, durationDays, first.key, last.key);
        Success(analysis, AssessLongTermRisk(mmPerYear, trend))
  }

  /** The ends of an ascending sort are elements of the input that bound every key. */
  lemma SortedEnds<T>(s: seq<Keyed<T>>)
    requires |s| > 0
    ensures |Sort(s, false)| == |s|
    ensures Sort(s, false)[0] in s && Sort(s, false)[|s| - 1] in s
    ensures forall i :: 0 <= i < |s| ==> Sort(s, false)[0].key <= s[i].key <= Sort(s, false)[|s| - 1].key
  {
    var sorted := Sort(s, false);
    SortSorts(s, false);
    assert |sorted| == |multiset(sorted)| == |multiset(s)| == |s|;
    assert sorted[0] in multiset(s) && sorted[|s| - 1] in multiset(s);
    forall i | 0 <= i < |s|
      ensures sorted[0].key <= s[i].key <= sorted[|s| - 1].key
    {
      assert s[i] in multiset(sorted);
      var m :| 0 <= m < |sorted| && sorted[m] == s[i];
      if m > 0 { assert InOrder(sorted[0].key, sorted[m].key, false); }
      if m < |sorted| - 1 { assert InOrder(sorted[m].key, sorted[|sorted| - 1].key, false); }
    }
  }

  /** The analysed span runs from the earliest to the latest timestamp, whatever the input order. */
  lemma LongTermSpanCoversAllSamples(points: seq<Json>, config: Dict, norm: (real, real, real) -> real,
                                     slope: seq<real> -> real, dated: real -> bool, intended: bool)
    requires AnalyzeLongTermVelocity(points, config, norm, slope, dated, intended).Success?
    ensures var a := AnalyzeLongTermVelocity(points, config, norm, slope, dated, intended).analysis;
      forall i :: 0 <= i < |points| ==>
        a.startTimestamp <= Number(points[i].fields["timestamp"]).value <= a.endTimestamp
  {
    var keyed := Timestamps(points).value;
    SortedEnds(keyed);
  }

  /** "insufficient_data" for a well-formed series exactly when it is shorter than 2 points or spans under 0.1 day. */
  lemma InsufficientExactly(points: seq<Json>, config: Dict, norm: (real, real, real) -> real,
                            slope: seq<real> -> real, dated: real -> bool, intended: bool, keyed: seq<Keyed<Json>>, earliest: int, latest: int)
    requires Timestamps(points) == Some(keyed)
    requires 0 <= earliest < |keyed| && 0 <= latest < |keyed|
    requires forall i :: 0 <= i < |keyed| ==> keyed[earliest].key <= keyed[i].key <= keyed[latest].key
    ensures AnalyzeLongTermVelocity(points, config, norm, slope, dated, intended) == InsufficientData <==>
      |points| < 2 || (keyed[latest].key - keyed[earliest].key) / 86400.0 < 0.1
  {
    SortedEndKeys(keyed, earliest, latest);
    var sorted := Sort(keyed, false);
    assert sorted[|sorted| - 1].key - sorted[0].key == keyed[latest].key - keyed[earliest].key;
  }

  /**
   * A series whose earliest or latest timestamp `fromtimestamp` rejects (a
   * millisecond timestamp past year 9999, say) is never analysed successfully.
   */
  lemma UndatableEndIsError(points: seq<Json>, config: Dict, norm: (real, real, real) -> real,
                            slope: seq<real> -> real, dated: real -> bool, intended: bool,
                            keyed: seq<Keyed<Json>>, earliest: int, latest: int)
    requires Timestamps(points) == Some(keyed)
    requires 0 <= earliest < |keyed| && 0 <= latest < |keyed|
    requires forall i :: 0 <= i < |keyed| ==> keyed[earliest].key <= keyed[i].key <= keyed[latest].key
    requires !dated(keyed[earliest].key) || !dated(keyed[latest].key)
    ensures !AnalyzeLongTermVelocity(points, config, norm, slope, dated, intended).Success?
  {
    SortedEndKeys(keyed, earliest, latest);
  }

  /**
   * As written, the long-term analysis of a station with the default
   * configuration labels every non-negative velocity "Extremely rapid".
   */
  lemma LongTermDefaultConfigClasses(points: seq<Json>, norm: (real, real, real) -> real, slope: seq<real> -> real,
                                     dated: real -> bool)
    requires AnalyzeLongTermVelocity(points, AdminRouter.DefaultStationConfig(), norm, slope, dated, false).Success?
    requires AnalyzeLongTermVelocity(points, AdminRouter.DefaultStationConfig(), norm, slope, dated, false)
               .analysis.velocityMmYear >= 0.0
    ensures AnalyzeLongTermVelocity(points, AdminRouter.DefaultStationConfig(), norm, slope, dated, false)
              .analysis.classification == Named(JStr("Extremely rapid"))
  {
    var a := AnalyzeLongTermVelocity(points, AdminRouter.DefaultStationConfig(), norm, slope, dated, false).analysis;
    DefaultConfigClassifiesEverythingExtremelyRapid(a.velocityMmYear);
  }

  /** The ends of the ascending sort carry the smallest and the largest key. */
  lemma SortedEndKeys<T>(s: seq<Keyed<T>>, earliest: int, latest: int)
    requires 0 <= earliest < |s| && 0 <= latest < |s|
    requires forall i :: 0 <= i < |s| ==> s[earliest].key <= s[i].key <= s[latest].key
    ensures |Sort(s, false)| == |s|
    ensures Sort(s, false)[0].key == s[earliest].key
    ensures Sort(s, false)[|s| - 1].key == s[latest].key
  {
    SortedEnds(s);
    var sorted := Sort(s, false);
    var a :| 0 <= a < |s| && s[a] == sorted[0];
    var b :| 0 <= b < |s| && s[b] == sorted[|s| - 1];
  }
}
