/** `SettingsManager`: the settings held as attributes of a Python settings
    module, read into a dictionary with defaults, and written back by
    rewriting the assignments in the module's source file.

    The module's attributes and the settings dictionaries are maps from
    attribute name to value. The file system is the content of the settings
    file (`None` when it does not exist), and `re.sub` is an oracle: given the
    content, the key whose assignment pattern it uses and the replacement
    text, it yields the rewritten content (the content itself when the
    pattern does not match), or `None` when it raises. */
module SettingsManager {
  import Decimal

  datatype Option<T> = None | Some(value: T)

  /** A value of a setting: a string, an integer or a list of class names. */
  datatype Value = Text(text: string) | Number(number: int) | Names(names: seq<string>)

  type Settings = map<string, Value>

  const DEVICE_ID: string := "DEVICE_ID"
  const CLIENT_ID: string := "CLIENT_ID"
  const CLIENT_SECRET: string := "CLIENT_SECRET"
  const NUMBER_OF_CLASS: string := "numberofclass"
  const OBJCLASS: string := "objclass"

  /** The keys whose values are written between double quotes, in the order
      they are rewritten. */
  const TEXT_KEYS: seq<string> := [DEVICE_ID, CLIENT_ID, CLIENT_SECRET]

  const DEFAULT_OBJCLASS: seq<string> := ["CLASS0", "CLASS1", "CLASS2"]

  /** The value `getattr(settings_module, key, default)` yields. */
  function Attribute(attributes: Settings, key: string, default: Value): Value {
    if key in attributes then attributes[key] else default
  }

  /** The dictionary `load_settings` builds from the module's attributes. */
  function Loaded(attributes: Settings): (config: Settings)
    ensures config.Keys == {DEVICE_ID, CLIENT_ID, CLIENT_SECRET, NUMBER_OF_CLASS, OBJCLASS}
  {
    map[DEVICE_ID := Attribute(attributes, DEVICE_ID, Text("")),
        CLIENT_ID := Attribute(attributes, CLIENT_ID, Text("")),
        CLIENT_SECRET := Attribute(attributes, CLIENT_SECRET, Text("")),
        NUMBER_OF_CLASS := Attribute(attributes, NUMBER_OF_CLASS, Number(3)),
        OBJCLASS := Attribute(attributes, OBJCLASS, Names(DEFAULT_OBJCLASS))]
  }

  /** Every setting the module lacks takes its default, and every setting it
      has is taken as it is. */
  lemma LoadedDefaults(attributes: Settings)
    ensures DEVICE_ID !in attributes ==> Loaded(attributes)[DEVICE_ID] == Text("")
    ensures CLIENT_ID !in attributes ==> Loaded(attributes)[CLIENT_ID] == Text("")
    ensures CLIENT_SECRET !in attributes ==> Loaded(attributes)[CLIENT_SECRET] == Text("")
    ensures NUMBER_OF_CLASS !in attributes ==> Loaded(attributes)[NUMBER_OF_CLASS] == Number(3)
    ensures OBJCLASS !in attributes ==> Loaded(attributes)[OBJCLASS] == Names(["CLASS0", "CLASS1", "CLASS2"])
    ensures forall k :: k in attributes && k in Loaded(attributes) ==> Loaded(attributes)[k] == attributes[k]
  {
  }

  // ---------------------------------------------------------------------
  // The class list as written into the settings file.
  // ---------------------------------------------------------------------

  /** No name contains a single quote. */
  predicate Unquoted(names: seq<string>) {
    forall i :: 0 <= i < |names| ==> NoQuote(names[i])
  }

  /** The name contains no single quote. */
  predicate NoQuote(name: string) {
    forall c :: 0 <= c < |name| ==> name[c] != '\''
  }

  function Quoted(name: string): string {
    "'" + name + "'"
  }

  /** The names, each in single quotes, joined by `", "`. */
  function Joined(names: seq<string>): (s: string)
    ensures names != [] ==> |s| >= 2
  {
    if names == [] then ""
    else
      var init := names[..|names| - 1];
      Joined(init) + (if init == [] then "" else ", ") + Quoted(names[|names| - 1])
  }

  /** The text written for the class list: `[` + the joined names + `]`. */
  function ObjclassString(names: seq<string>): string {
    "[" + Joined(names) + "]"
  }

  /** The loop of `save_settings` that builds `objclass_str`. */
  method FormatObjclass(names: seq<string>) returns (s: string)
    ensures s == ObjclassString(names)
  {
    s := "[";
    for i := 0 to |names|
      invariant s == "[" + Joined(names[..i])
    {
      assert names[..i + 1][..i] == names[..i];
      if i > 0 {
        s := s + ", ";
      }
      s := s + Quoted(names[i]);
    }
    assert names[..|names|] == names;
    s := s + "]";
  }

  /** The position of the last single quote of `s` before position `k`,
      or -1 when there is none. */
  function LastQuoteBefore(s: string, k: nat): (j: int)
    requires k <= |s|
    ensures -1 <= j < k
    ensures j >= 0 ==> s[j] == '\''
  {
    if k == 0 then -1 else if s[k - 1] == '\'' then k - 1 else LastQuoteBefore(s, k - 1)
  }

  /** Reads back the joined names that make up `s[..k]`, from the last one
      to the first. */
  function ParseUpTo(s: string, k: nat): Option<seq<string>>
    requires k <= |s|
    decreases k
  {
    if k < 2 || s[k - 1] != '\'' then None
    else
      var j := LastQuoteBefore(s, k - 1);
      if j < 0 then None
      else if j == 0 then Some([s[1..k - 1]])
      else if j >= 2 && s[j - 2] == ',' && s[j - 1] == ' ' then
        match ParseUpTo(s, j - 2)
        case None => None
        case Some(init) => Some(init + [s[j + 1..k - 1]])
      else None
  }

  /** Reads back a class list written by `ObjclassString`. */
  function ParseObjclass(s: string): Option<seq<string>> {
    if |s| < 2 || s[0] != '[' || s[|s| - 1] != ']' then None
    else
      var body := s[1..|s| - 1];
      if body == [] then Some([]) else ParseUpTo(body, |body|)
  }

  /** The last quote before `k` is at `j` when nothing between them is a quote. */
  lemma {:induction false} LastQuoteAt(s: string, j: nat, k: nat)
    requires j < k <= |s| && s[j] == '\''
    requires forall i :: j < i < k ==> s[i] != '\''
    ensures LastQuoteBefore(s, k) == j
    decreases k
  {
    if k - 1 != j {
      LastQuoteAt(s, j, k - 1);
    }
  }

  /** The last name is appended to the others, after `", "` unless it is the only one. */
  lemma JoinedLast(names: seq<string>)
    requires names != []
    ensures var init := names[..|names| - 1];
      Joined(names) == if init == [] then Quoted(names[|names| - 1]) else Joined(init) + ", " + Quoted(names[|names| - 1])
  {
  }

  /** The written class list reads back as the same names, provided no name
      contains a single quote; the empty list is written as `[]`. */
  lemma ObjclassRoundTrip(names: seq<string>)
    requires Unquoted(names)
    ensures ParseObjclass(ObjclassString(names)) == Some(names)
    ensures names == [] ==> ObjclassString(names) == "[]"
  {
    var s := ObjclassString(names);
    assert s[1..|s| - 1] == Joined(names);
    if names != [] {
      JoinedRoundTrip(names, Joined(names));
    }
  }

  /** Joined names at the front of `s` read back as themselves. */
  lemma {:induction false} JoinedRoundTrip(names: seq<string>, s: string)
    requires names != [] && Unquoted(names)
    requires |Joined(names)| <= |s| && s[..|Joined(names)|] == Joined(names)
    ensures ParseUpTo(s, |Joined(names)|) == Some(names)
  {
    var init, last := names[..|names| - 1], names[|names| - 1];
    JoinedLast(names);
    assert NoQuote(last);
    if init == [] {
      QuotedLast(s, [], last, 0, |last| + 2);
      assert names == [last];
    } else {
      var front := Joined(init) + ", ";
      var j, k := |front|, |Joined(names)|;
      QuotedLast(s, front, last, j, k);
      SeparatorAfter(s, Joined(init), j);
      assert Unquoted(init) by {
        forall i | 0 <= i < |init| ensures NoQuote(init[i]) {
          assert init[i] == names[i];
        }
      }
      JoinedRoundTrip(init, s);
      ParseAppended(s, j, k, init);
      assert names == init + [last];
    }
  }

  /** Where `s` starts with `a` and `", "`, it starts with `a`, and the
      separator follows. */
  lemma SeparatorAfter(s: string, a: string, n: nat)
    requires n == |a| + 2 <= |s| && s[..n] == a + ", "
    ensures s[..|a|] == a && s[n - 2] == ',' && s[n - 1] == ' '
  {
    assert s[..|a|] == s[..n][..|a|];
    assert s[n - 2] == s[..n][n - 2] && s[n - 1] == s[..n][n - 1];
  }

  /** Items read back from `s[..j - 2]`, followed by `", "` and the quoted
      name `s[j + 1..k - 1]`, read back with that name appended. */
  lemma ParseAppended(s: string, j: nat, k: nat, init: seq<string>)
    requires 2 <= j < k <= |s| && s[k - 1] == '\'' && LastQuoteBefore(s, k - 1) == j
    requires s[j - 2] == ',' && s[j - 1] == ' '
    requires ParseUpTo(s, j - 2) == Some(init)
    ensures ParseUpTo(s, k) == Some(init + [s[j + 1..k - 1]])
  {
  }

  /** Where `s` starts with `front` and a quoted name without quotes, the
      last quote before the closing one opens the name. */
  lemma QuotedLast(s: string, front: string, name: string, j: nat, k: nat)
    requires NoQuote(name)
    requires j == |front| && k == j + |name| + 2 <= |s| && s[..k] == front + Quoted(name)
    ensures s[k - 1] == '\''
    ensures LastQuoteBefore(s, k - 1) == j
    ensures s[j + 1..k - 1] == name
    ensures s[..j] == front
  {
    var t := front + Quoted(name);
    assert s[j] == t[j] == '\'' && s[k - 1] == t[k - 1] == '\'';
    forall i | j < i < k - 1 ensures s[i] != '\'' {
      assert s[i] == t[i] == name[i - j - 1];
    }
    LastQuoteAt(s, j, k - 1);
    assert s[j + 1..k - 1] == t[j + 1..k - 1] == name;
    assert s[..j] == t[..j] == front;
  }

  // ---------------------------------------------------------------------
  // Rewriting the settings file.
  // ---------------------------------------------------------------------

  /** `re.sub(pattern_of(key), replacement, content)`, or `None` when it raises. */
  type Substitute = (string, string, string) -> Option<string>

  /** `str(value)` as an f-string writes it. */
  function Str(v: Value): string {
    match v
    case Text(s) => s
    case Number(n) => Decimal.IntToString(n)
    case Names(ns) => ObjclassString(ns)
  }

  /** What `enumerate(value)` walks over for the class list: the names of a
      list, the characters of a string; an integer is not iterable. */
  function ClassItems(v: Value): Option<seq<string>> {
    match v
    case Names(ns) => Some(ns)
    case Text(s) => Some(seq(|s|, i requires 0 <= i < |s| => [s[i]]))
    case Number(_) => None
  }

  /** The rewrite of one double-quoted key when the new settings have it. */
  function RewriteText(content: string, key: string, settings: Settings, substitute: Substitute): Option<string> {
    if key in settings then substitute(content, key, key + " = \"" + Str(settings[key]) + "\"")
    else Some(content)
  }

  /** The rewrites of the double-quoted keys `keys`, in order; the first one
      that raises ends the sequence. */
  function RewriteTexts(content: string, keys: seq<string>, settings: Settings, substitute: Substitute): Option<string> {
    if keys == [] then Some(content)
    else
      match RewriteTexts(content, keys[..|keys| - 1], settings, substitute)
      case None => None
      case Some(c) => RewriteText(c, keys[|keys| - 1], settings, substitute)
  }

  /** The rewrite of the class count. */
  function RewriteCount(content: string, settings: Settings, substitute: Substitute): Option<string> {
    if NUMBER_OF_CLASS in settings then
      substitute(content, NUMBER_OF_CLASS, NUMBER_OF_CLASS + " = " + Str(settings[NUMBER_OF_CLASS]))
    else Some(content)
  }

  /** The rewrite of the class list. */
  function RewriteClasses(content: string, settings: Settings, substitute: Substitute): Option<string> {
    if OBJCLASS !in settings then Some(content)
    else
      match ClassItems(settings[OBJCLASS])
      case None => None
      case Some(names) => substitute(content, OBJCLASS, OBJCLASS + " = " + ObjclassString(names))
  }

  /** The content `save_settings` would write, or `None` when building it raises. */
  function Rewritten(content: string, settings: Settings, substitute: Substitute): Option<string> {
    match RewriteTexts(content, TEXT_KEYS, settings, substitute)
    case None => None
    case Some(c1) =>
      match RewriteCount(c1, settings, substitute)
      case None => None
      case Some(c2) => RewriteClasses(c2, settings, substitute)
  }

  /** Settings with none of the five keys leave the content as it is. */
  lemma {:induction false} NothingToRewrite(content: string, settings: Settings, substitute: Substitute)
    requires forall k :: k in settings ==> k !in TEXT_KEYS && k != NUMBER_OF_CLASS && k != OBJCLASS
    ensures Rewritten(content, settings, substitute) == Some(content)
  {
    assert TEXT_KEYS[..1][..0] == [] && TEXT_KEYS[..2][..1] == TEXT_KEYS[..1] && TEXT_KEYS[..3][..2] == TEXT_KEYS[..2];
    assert RewriteTexts(content, TEXT_KEYS[..1], settings, substitute) == Some(content);
    assert RewriteTexts(content, TEXT_KEYS[..2], settings, substitute) == Some(content);
    assert TEXT_KEYS[..3] == TEXT_KEYS;
  }

  /** Once a rewrite of the double-quoted keys raises, the remaining ones
      are not attempted. */
  lemma {:induction false} RewriteTextsStops(content: string, keys: seq<string>, i: nat, settings: Settings, substitute: Substitute)
    requires i <= |keys| && RewriteTexts(content, keys[..i], settings, substitute).None?
    ensures RewriteTexts(content, keys, settings, substitute).None?
    decreases |keys| - i
  {
    if i < |keys| {
      assert keys[..i + 1][..i] == keys[..i];
      RewriteTextsStops(content, keys, i + 1, settings, substitute);
    } else {
      assert keys[..i] == keys;
    }
  }

  /** The rewrites of `save_settings`, in order: the double-quoted keys, the
      class count and the class list. */
  method Rewrite(content: string, settings: Settings, substitute: Substitute) returns (modified: Option<string>)
    ensures modified == Rewritten(content, settings, substitute)
  {
    var texts := RewriteTextKeys(content, settings, substitute);
    if texts.None? {
      return None;
    }
    var c := texts.value;
    if NUMBER_OF_CLASS in settings {
      var r := substitute(c, NUMBER_OF_CLASS, NUMBER_OF_CLASS + " = " + Str(settings[NUMBER_OF_CLASS]));
      if r.None? {
        return None;
      }
      c := r.value;
    }
    if OBJCLASS in settings {
      var names := ClassItems(settings[OBJCLASS]);
      if names.None? {
        return None;
      }
      var listed := FormatObjclass(names.value);
      var r := substitute(c, OBJCLASS, OBJCLASS + " = " + listed);
      if r.None? {
        return None;
      }
      c := r.value;
    }
    return Some(c);
  }

  /** The loop of `save_settings` over the double-quoted keys. */
  method RewriteTextKeys(content: string, settings: Settings, substitute: Substitute) returns (modified: Option<string>)
    ensures modified == RewriteTexts(content, TEXT_KEYS, settings, substitute)
  {
    var c := content;
    for i := 0 to |TEXT_KEYS|
      invariant RewriteTexts(content, TEXT_KEYS[..i], settings, substitute) == Some(c)
    {
      assert TEXT_KEYS[..i + 1][..i] == TEXT_KEYS[..i];
      var key := TEXT_KEYS[i];
      if key in settings {
        var r := substitute(c, key, key + " = \"" + Str(settings[key]) + "\"");
        if r.None? {
          RewriteTextsStops(content, TEXT_KEYS, i + 1, settings, substitute);
          return None;
        }
        c := r.value;
      }
    }
    assert TEXT_KEYS[..|TEXT_KEYS|] == TEXT_KEYS;
    return Some(c);
  }

  class SettingsManager {
    /** The attributes of the settings module. */
    var attributes: Settings
    /** The content of the settings file; `None` when it does not exist. */
    var file: Option<string>
    var config: Settings
    const substitute: Substitute

    constructor (attributes: Settings, file: Option<string>, substitute: Substitute)
      ensures this.attributes == attributes && this.file == file && this.substitute == substitute
      ensures config == Loaded(attributes)
    {
      this.attributes, this.file, this.substitute := attributes, file, substitute;
      config := Loaded(attributes);
    }

    /** `load_settings`. */
    method LoadSettings() returns (c: Settings)
      modifies this
      ensures c == config == Loaded(attributes)
      ensures attributes == old(attributes) && file == old(file)
    {
      config := Loaded(attributes);
      c := config;
    }

    /** `get_setting`: the configured value, or `default` when the key is missing. */
    function GetSetting(key: string, default: Value): (v: Value)
      reads this
      ensures key !in config ==> v == default
      ensures key in config ==> v == config[key]
    {
      if key in config then config[key] else default
    }

    /** `save_settings`. */
    method SaveSettings(settings: Settings) returns (ok: bool)
      modifies this
      ensures old(file).None? ==> !ok
      ensures old(file).Some? ==> ok == Rewritten(old(file).value, settings, substitute).Some?
      ensures if ok && old(file).Some? && Rewritten(old(file).value, settings, substitute).value != old(file).value then
                && file == Rewritten(old(file).value, settings, substitute)
                && config == settings && attributes == old(attributes) + settings
              else
                file == old(file) && config == old(config) && attributes == old(attributes)
    {
      if file.None? {
        return false;
      }
      var content := file.value;
      var rewritten := Rewrite(content, settings, substitute);
      if rewritten.None? {
        return false;
      }
      var modified := rewritten.value;
      if content == modified {
        return true;
      }
      file := Some(modified);
      attributes := attributes + settings;
      config := settings;
      return true;
    }
  }
}
