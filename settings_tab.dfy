/** `SettingsTab`: the settings form. Its class list is a Treeview whose rows
    carry a class index and a class name; the form's variables hold the
    device ID, the client credentials, the class count, and the index and
    name of the selected class. Message boxes become returned dialogs. */
module SettingsTab {
  import Decimal
  import opened SettingsManager

  /** One row of the class list. */
  datatype Row = Row(index: int, name: string)

  /** The message boxes of `update_class_editor_rows`. */
  datatype Dialog =
    | TooManyClasses           // "クラス数は256以下にしてください"
    | ClassesAdjusted(count: int)  // "クラス数を<count>に調整しました。"

  /** The largest class count the editor accepts. */
  const MAX_CLASSES: int := 256

  /** The name given to a missing class: `f"CLASS{i}"`. */
  function ClassLabel(i: nat): string {
    "CLASS" + Decimal.NatToString(i)
  }

  /** Python's `names[:n]`: a negative `n` counts from the end. */
  function Prefix(names: seq<string>, n: int): (r: seq<string>)
    ensures 0 <= n ==> |r| == if n < |names| then n else |names|
    ensures n < 0 ==> |r| == if -n < |names| then |names| + n else 0
    ensures r <= names
  {
    if n >= 0 then (if n < |names| then names[..n] else names)
    else if -n < |names| then names[..|names| + n]
    else []
  }

  /** The default names for the positions `from .. n-1`. */
  function Padding(from: nat, n: int): (r: seq<string>)
    ensures |r| == if from < n then n - from else 0
    ensures forall k :: 0 <= k < |r| ==> r[k] == ClassLabel(from + k)
    decreases n - from
  {
    if from >= n then [] else [ClassLabel(from)] + Padding(from + 1, n)
  }

  /** The class list fitted to the count `n`: the first names kept, the
      missing positions filled with their default names. */
  function Fitted(names: seq<string>, n: int): (r: seq<string>)
    ensures n >= 0 ==> |r| == n
    ensures n < 0 ==> |r| == if -n < |names| then |names| + n else 0
    ensures forall i :: 0 <= i < |r| && i < |names| ==> r[i] == names[i]
    ensures forall i :: |names| <= i < |r| ==> r[i] == ClassLabel(i)
  {
    var kept := Prefix(names, n);
    kept + Padding(|kept|, n)
  }

  /** Fitting a fitted list to the same count changes nothing. */
  lemma FittedIdempotent(names: seq<string>, n: int)
    requires n >= 0
    ensures Fitted(Fitted(names, n), n) == Fitted(names, n)
  {
    var once := Fitted(names, n);
    var twice := Fitted(once, n);
    assert |twice| == |once|;
    forall i | 0 <= i < |once| ensures twice[i] == once[i] {
    }
  }

  /** The class count the editor uses. */
  function Clamped(n: int): (m: int)
    ensures m <= MAX_CLASSES
    ensures n <= MAX_CLASSES ==> m == n
  {
    if n > MAX_CLASSES then MAX_CLASSES else n
  }

  /** The rows the class list shows for `names`: row `i` carries `i` and the `i`-th name. */
  function Rows(names: seq<string>): (rows: seq<Row>)
    ensures |rows| == |names|
    ensures forall i :: 0 <= i < |names| ==> rows[i] == Row(i, names[i])
  {
    seq(|names|, i requires 0 <= i < |names| => Row(i, names[i]))
  }

  /** The names of the rows, in order. */
  function RowNames(rows: seq<Row>): (names: seq<string>)
    ensures |names| == |rows|
    ensures forall i :: 0 <= i < |rows| ==> names[i] == rows[i].name
  {
    seq(|rows|, i requires 0 <= i < |rows| => rows[i].name)
  }

  /** Filling the list with names and reading the names back yields them. */
  lemma RowNamesOfRows(names: seq<string>)
    ensures RowNames(Rows(names)) == names
  {
  }

  /** The dictionary `get_current_settings` returns. */
  function CurrentSettings(deviceId: string, clientId: string, clientSecret: string, numClasses: int, rows: seq<Row>): Settings {
    map[DEVICE_ID := Text(deviceId), CLIENT_ID := Text(clientId), CLIENT_SECRET := Text(clientSecret),
        NUMBER_OF_CLASS := Number(numClasses), OBJCLASS := Names(Fitted(RowNames(rows), numClasses))]
  }

  /** A settings dictionary holding the five settings with their types. */
  predicate Shaped(config: Settings) {
    && DEVICE_ID in config && config[DEVICE_ID].Text?
    && CLIENT_ID in config && config[CLIENT_ID].Text?
    && CLIENT_SECRET in config && config[CLIENT_SECRET].Text?
    && NUMBER_OF_CLASS in config && config[NUMBER_OF_CLASS].Number?
    && OBJCLASS in config && config[OBJCLASS].Names?
  }

  class SettingsTab {
    var rows: seq<Row>
    /** The first selected row, if any. */
    var selection: Option<nat>
    var deviceId: string
    var clientId: string
    var clientSecret: string
    var numClasses: int
    var classIndex: int
    var className: string

    /** The selection names a row of the list. */
    predicate Valid()
      reads this
    {
      selection.Some? ==> selection.value < |rows|
    }

    /** `__init__`, given the settings `load_settings` returned. */
    constructor (config: Settings)
      requires Shaped(config)
      ensures Valid()
      ensures deviceId == config[DEVICE_ID].text && clientId == config[CLIENT_ID].text
      ensures clientSecret == config[CLIENT_SECRET].text && numClasses == config[NUMBER_OF_CLASS].number
      ensures rows == Rows(config[OBJCLASS].names)
      ensures selection == if config[OBJCLASS].names == [] then None else Some(0)
      ensures config[OBJCLASS].names != [] ==> classIndex == 0 && className == config[OBJCLASS].names[0]
      ensures config[OBJCLASS].names == [] ==> classIndex == 0 && className == ""
    {
      rows, selection := [], None;
      deviceId, clientId, clientSecret, numClasses := "", "", "", 0;
      classIndex, className := 0, "";
      new;
      LoadConfigToUi(config);
    }

    /** `load_config_to_ui`. */
    method LoadConfigToUi(config: Settings)
      requires Valid() && Shaped(config)
      modifies this
      ensures Valid()
      ensures deviceId == config[DEVICE_ID].text && clientId == config[CLIENT_ID].text
      ensures clientSecret == config[CLIENT_SECRET].text && numClasses == config[NUMBER_OF_CLASS].number
      ensures rows == Rows(config[OBJCLASS].names)
      ensures selection == if config[OBJCLASS].names == [] then None else Some(0)
      ensures config[OBJCLASS].names != [] ==> classIndex == 0 && className == config[OBJCLASS].names[0]
      ensures config[OBJCLASS].names == [] ==> classIndex == old(classIndex) && className == old(className)
    {
      deviceId := config[DEVICE_ID].text;
      clientId := config[CLIENT_ID].text;
      clientSecret := config[CLIENT_SECRET].text;
      numClasses := config[NUMBER_OF_CLASS].number;
      FillClassList(config[OBJCLASS].names);
    }

    /** The loop reading the names of the rows, in order. */
    method ReadNames() returns (names: seq<string>)
      ensures names == RowNames(rows)
    {
      names := [];
      for i := 0 to |rows|
        invariant names == RowNames(rows[..i])
      {
        names := names + [rows[i].name];
      }
      assert rows[..|rows|] == rows;
    }

    /** `fill_class_list`: every row replaced, the first one selected and shown
        in the editor. */
    method FillClassList(classes: seq<string>)
      requires Valid()
      modifies this
      ensures Valid()
      ensures rows == Rows(classes)
      ensures selection == if classes == [] then None else Some(0)
      ensures classes != [] ==> classIndex == 0 && className == classes[0]
      ensures classes == [] ==> classIndex == old(classIndex) && className == old(className)
      ensures deviceId == old(deviceId) && clientId == old(clientId) && clientSecret == old(clientSecret)
      ensures numClasses == old(numClasses)
    {
      // Deleting every item also clears the selection.
      var filled: seq<Row> := [];
      for i := 0 to |classes|
        invariant filled == Rows(classes[..i])
      {
        filled := filled + [Row(i, classes[i])];
      }
      assert classes[..|classes|] == classes;
      rows, selection := filled, None;
      if rows != [] {
        selection := Some(0);
        OnClassSelected();
      }
    }

    /** `on_class_selected`: the selected row shown in the editor. */
    method OnClassSelected()
      requires Valid()
      modifies this
      ensures rows == old(rows) && selection == old(selection)
      ensures selection.Some? ==> classIndex == rows[selection.value].index && className == rows[selection.value].name
      ensures selection.None? ==> classIndex == old(classIndex) && className == old(className)
      ensures deviceId == old(deviceId) && clientId == old(clientId) && clientSecret == old(clientSecret)
      ensures numClasses == old(numClasses)
    {
      if selection.Some? {
        var row := rows[selection.value];
        classIndex, className := row.index, row.name;
      }
    }

    /** `update_selected_class`: the selected row takes the edited name and
        keeps its index; no other row changes. */
    method UpdateSelectedClass()
      requires Valid()
      modifies this
      ensures selection == old(selection) && className == old(className) && classIndex == old(classIndex)
      ensures selection.None? ==> rows == old(rows)
      ensures selection.Some? ==> rows == old(rows)[selection.value := Row(old(rows)[selection.value].index, className)]
      ensures Valid()
      ensures deviceId == old(deviceId) && clientId == old(clientId) && clientSecret == old(clientSecret)
      ensures numClasses == old(numClasses)
    {
      if selection.Some? {
        var k := selection.value;
        rows := rows[k := Row(rows[k].index, className)];
      }
    }

    /** `update_class_editor_rows`: the count clamped to 256, the list fitted
        to it, its first row selected and shown in the editor. */
    method UpdateClassEditorRows() returns (dialogs: seq<Dialog>)
      requires Valid()
      modifies this
      ensures Valid()
      ensures numClasses == Clamped(old(numClasses))
      ensures rows == Rows(Fitted(RowNames(old(rows)), numClasses))
      ensures dialogs == (if old(numClasses) > MAX_CLASSES then [TooManyClasses] else []) + [ClassesAdjusted(numClasses)]
      ensures var fitted := Fitted(RowNames(old(rows)), numClasses);
        && selection == (if fitted == [] then None else Some(0))
        && (fitted != [] ==> classIndex == 0 && className == fitted[0])
        && (fitted == [] ==> classIndex == old(classIndex) && className == old(className))
      ensures deviceId == old(deviceId) && clientId == old(clientId) && clientSecret == old(clientSecret)
    {
      var current := ReadNames();
      var n := numClasses;
      dialogs := [];
      if n > MAX_CLASSES {
        dialogs := [TooManyClasses];
        numClasses := MAX_CLASSES;
        n := MAX_CLASSES;
      }
      var adjusted := AdjustClasses(current, n);
      FillClassList(adjusted);
      dialogs := dialogs + [ClassesAdjusted(n)];
    }

    /** `get_current_settings`: the form's values, with the class list fitted
        to the class count. */
    method GetCurrentSettings() returns (settings: Settings)
      ensures settings == CurrentSettings(deviceId, clientId, clientSecret, numClasses, rows)
    {
      var names := ReadNames();
      var n := numClasses;
      if |names| != n {
        ghost var read := names;
        while |names| < n
          invariant |read| <= |names| && (|names| == |read| || |names| <= n)
          invariant names == read + Padding(|read|, |names|)
          decreases n - |names|
        {
          PaddingStep(|read|, |names|);
          names := names + [ClassLabel(|names|)];
        }
        names := Prefix(names, n);
        assert names == Fitted(read, n);
      } else {
        assert names == Fitted(names, n);
      }
      settings := map[DEVICE_ID := Text(deviceId), CLIENT_ID := Text(clientId), CLIENT_SECRET := Text(clientSecret),
                      NUMBER_OF_CLASS := Number(n), OBJCLASS := Names(names)];
    }
  }

  /** The list `update_class_editor_rows` builds: `current[:n]`, then default
      names appended while it is shorter than `n`. */
  method AdjustClasses(current: seq<string>, n: int) returns (adjusted: seq<string>)
    ensures adjusted == Fitted(current, n)
  {
    var kept := Prefix(current, n);
    adjusted := kept;
    while |adjusted| < n
      invariant |kept| <= |adjusted| && (|adjusted| == |kept| || |adjusted| <= n)
      invariant adjusted == kept + Padding(|kept|, |adjusted|)
      decreases n - |adjusted|
    {
      PaddingStep(|kept|, |adjusted|);
      adjusted := adjusted + [ClassLabel(|adjusted|)];
    }
    assert |adjusted| == n || (|adjusted| == |kept| && |kept| >= n);
    PaddingTo(|kept|, |adjusted|, n);
  }

  /** Padding one more position appends that position's default name. */
  lemma PaddingStep(from: nat, n: nat)
    requires from <= n
    ensures Padding(from, n + 1) == Padding(from, n) + [ClassLabel(n)]
  {
    var a, b := Padding(from, n + 1), Padding(from, n) + [ClassLabel(n)];
    assert |a| == |b|;
    forall k | 0 <= k < |a| ensures a[k] == b[k] {
    }
  }

  /** Padding up to the length already reached when it is the target count. */
  lemma PaddingTo(from: nat, m: nat, n: int)
    requires m == n || (m == from && from >= n)
    ensures Padding(from, m) == Padding(from, n)
  {
  }
}
