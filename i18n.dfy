/**
 * Localised user-interface text: the translation table, the current
 * language, `t` with its fallbacks and `str.format`-style placeholder
 * substitution, and detection of the system language from the locale.
 */
module I18n {
  import opened Wrappers
  import opened PyStr

  const LANG_EN: string := "en"
  const LANG_JA: string := "ja"
  const SUPPORTED_LANGS: seq<string> := [LANG_EN, LANG_JA]

  /** The texts of one key. Every entry of the table has both languages,
    * so a record stands for the per-key dictionary. */
  datatype Texts = Texts(en: string, ja: string)

  /** Key to texts. */
  const STRINGS: map<string, Texts> :=
    map[
      "app.title" := Texts("File Tab Opener", "File Tab Opener"),
      "history.label" := Texts("History:", "履歴:"),
      "history.open" := Texts("Open", "開く"),
      "history.pin" := Texts("Pin", "Pin"),
      "history.clear" := Texts("Clear", "Clear"),
      "history.clear_confirm_title" := Texts("Clear History", "履歴クリア"),
      "history.clear_confirm_msg" := Texts("Delete all history except pinned items?", "ピン留め以外の履歴をすべて削除しますか？"),
      "history.invalid_path_title" := Texts("Invalid Path", "無効なパス"),
      "history.invalid_path_msg" := Texts("Folder does not exist:\n{path}", "フォルダが存在しません:\n{path}"),
      "tab.add" := Texts("+ Add Tab", "+ タブ追加"),
      "tab.delete" := Texts("x Delete Tab", "x タブ削除"),
      "tab.add_dialog_title" := Texts("Add Tab", "タブ追加"),
      "tab.add_dialog_prompt" := Texts("Enter tab name:", "タブ名を入力:"),
      "tab.duplicate_title" := Texts("Duplicate", "重複"),
      "tab.duplicate_msg" := Texts("Tab '{name}' already exists.", "タブ '{name}' は既に存在します。"),
      "tab.delete_confirm_title" := Texts("Delete Tab", "タブ削除"),
      "tab.delete_confirm_msg" := Texts("Delete tab '{name}' and all its paths?", "タブ '{name}' とそのパスをすべて削除しますか？"),
      "tab.no_tab_title" := Texts("No Tab", "タブなし"),
      "tab.no_tab_msg" := Texts("Please add a tab first.", "先にタブを追加してください。"),
      "tab.no_paths_title" := Texts("No Paths", "パスなし"),
      "tab.no_paths_msg" := Texts("No folders registered in this tab.", "このタブにフォルダが登録されていません。"),
      "tab.open_as_tabs" := Texts("Open as Tabs", "タブで開く"),
      "path.move_up" := Texts("▲ Up", "▲ 上へ"),
      "path.move_down" := Texts("▼ Down", "▼ 下へ"),
      "path.add" := Texts("+ Add Path", "+ パス追加"),
      "path.remove" := Texts("- Remove", "- パス削除"),
      "path.browse" := Texts("Browse...", "参照..."),
      "path.invalid_title" := Texts("Invalid Path", "無効なパス"),
      "path.invalid_msg" := Texts("Folder does not exist:\n{path}", "フォルダが存在しません:\n{path}"),
      "error.title" := Texts("Error", "エラー"),
      "error.open_failed" := Texts("Failed to open:\n{path}\n\n{error}", "開けませんでした:\n{path}\n\n{error}"),
      "error.invalid_paths_title" := Texts("Invalid Paths", "無効なパス"),
      "error.invalid_paths_msg" := Texts("The following paths will be skipped:\n{paths}", "以下のパスはスキップされます:\n{paths}"),
      "settings.timeout" := Texts("Timeout", "タイムアウト"),
      "settings.timeout_unit" := Texts("sec", "秒")
    ]

  predicate Supported(lang: string) { lang == LANG_EN || lang == LANG_JA }

  /** `set_language`: a supported language is taken, anything else becomes
    * English. */
  function ChosenLanguage(lang: string): (r: string)
    ensures Supported(r)
    ensures r == lang <==> Supported(lang)
  {
    if Supported(lang) then lang else LANG_EN
  }

  /** `entry.get(lang)`. */
  function TextFor(entry: Texts, lang: string): (r: Option<string>)
    ensures r.Some? <==> Supported(lang)
  {
    if lang == LANG_EN then Some(entry.en)
    else if lang == LANG_JA then Some(entry.ja)
    else None
  }

  /** `entry.get(lang) or entry.get("en", key)`: the text for `lang` unless it
    * is missing or empty, else the English text. */
  function EntryText(entry: Texts, lang: string): (r: string)
    ensures Supported(lang) && TextFor(entry, lang).value != "" ==> r == TextFor(entry, lang).value
    ensures !(Supported(lang) && TextFor(entry, lang).value != "") ==> r == entry.en
  {
    var own := TextFor(entry, lang);
    if own.Some? && own.value != "" then own.value else entry.en
  }

  // ---------------------------------------------------------------------
  // `text.format(**kwargs)` for templates made of literal text, doubled
  // braces and `{name}` fields.

  datatype FormatResult =
    | Formatted(text: string)
    | MissingKey(name: string)   // `KeyError`, which `t` passes over
    | Unsupported                // any other `format` error; see README

  /** A field `format` looks up by keyword: not empty, not a number, and
    * with no attribute, index, conversion or format-spec syntax. */
  predicate PlainName(f: string) {
    && f != []
    && !AllDigits(f)
    && forall k :: 0 <= k < |f| ==> f[k] !in "{}!:.["
  }

  /** The first `}` at or after `i`, or `|t|` when there is none. */
  function CloseAt(t: string, i: nat): (j: nat)
    requires i <= |t|
    ensures i <= j <= |t|
    ensures j < |t| ==> t[j] == '}'
    ensures forall k :: i <= k < j ==> t[k] != '}'
    decreases |t| - i
  {
    if i == |t| || t[i] == '}' then i else CloseAt(t, i + 1)
  }

  lemma {:induction false} CloseAtRun(t: string, i: nat, j: nat)
    requires i <= j < |t| && t[j] == '}'
    requires forall k :: i <= k < j ==> t[k] != '}'
    ensures CloseAt(t, i) == j
    decreases j - i
  {
    if i < j { CloseAtRun(t, i + 1, j); }
  }

  function Prepend(s: string, r: FormatResult): FormatResult {
    if r.Formatted? then Formatted(s + r.text) else r
  }

  /** `t.format(**kwargs)`: a `KeyError` names a field that has the form of
    * a keyword and was not given. */
  function Format(t: string, kwargs: map<string, string>): (r: FormatResult)
    ensures r.MissingKey? ==> PlainName(r.name) && r.name !in kwargs
    decreases |t|
  {
    if t == [] then Formatted([])
    else if t[0] == '{' then
      if |t| >= 2 && t[1] == '{' then Prepend("{", Format(t[2..], kwargs))
      else
        var j := CloseAt(t, 1);
        if j == |t| then Unsupported
        else
          var name := t[1..j];
          if !PlainName(name) then Unsupported
          else if name !in kwargs then MissingKey(name)
          else Prepend(kwargs[name], Format(t[j + 1..], kwargs))
    else if t[0] == '}' then
      if |t| >= 2 && t[1] == '}' then Prepend("}", Format(t[2..], kwargs)) else Unsupported
    else Prepend([t[0]], Format(t[1..], kwargs))
  }

  predicate NoBraces(t: string) { '{' !in t && '}' !in t }

  /** Text without braces formats to itself. */
  lemma {:induction false} FormatPlain(t: string, kwargs: map<string, string>)
    requires NoBraces(t)
    ensures Format(t, kwargs) == Formatted(t)
  {
    if t != [] {
      FormatPlain(t[1..], kwargs);
      assert [t[0]] + t[1..] == t;
    }
  }

  lemma {:induction false} FormatAfterPlain(pre: string, rest: string, kwargs: map<string, string>)
    requires NoBraces(pre)
    ensures Format(pre + rest, kwargs) == Prepend(pre, Format(rest, kwargs))
  {
    if pre == [] {
      assert pre + rest == rest;
      var r := Format(rest, kwargs);
      if r.Formatted? { assert pre + r.text == r.text; }
    } else {
      assert (pre + rest)[1..] == pre[1..] + rest;
      FormatAfterPlain(pre[1..], rest, kwargs);
      var r := Format(rest, kwargs);
      if r.Formatted? { assert [pre[0]] + (pre[1..] + r.text) == pre + r.text; }
    }
  }

  /** One field between brace-free text: substituted when the keyword is
    * given, `KeyError` when it is not. */
  lemma FormatOneField(pre: string, name: string, post: string, kwargs: map<string, string>)
    requires NoBraces(pre) && NoBraces(post) && PlainName(name)
    ensures name in kwargs ==> Format(pre + "{" + name + "}" + post, kwargs) == Formatted(pre + kwargs[name] + post)
    ensures name !in kwargs ==> Format(pre + "{" + name + "}" + post, kwargs) == MissingKey(name)
  {
    var field := "{" + name + "}" + post;
    assert pre + "{" + name + "}" + post == pre + field;
    FormatAfterPlain(pre, field, kwargs);
    assert forall k :: 1 <= k < |name| + 1 ==> field[k] == name[k - 1];
    CloseAtRun(field, 1, |name| + 1);
    assert field[1..|name| + 1] == name;
    assert field[|name| + 2..] == post;
    FormatPlain(post, kwargs);
  }

  // ---------------------------------------------------------------------

  /** `t(key, **kwargs)` in language `lang`: a missing key is its own
    * text, and formatting is skipped when no keywords are given and
    * passed over when it fails on a missing keyword. */
  function Translate(lang: string, key: string, kwargs: map<string, string>): (r: string)
    ensures key !in STRINGS ==> r == key
    ensures key in STRINGS && |kwargs| == 0 ==>
              r == if lang == LANG_JA then STRINGS[key].ja else STRINGS[key].en
  {
    TableComplete();
    if key !in STRINGS then key
    else
      var text := EntryText(STRINGS[key], lang);
      if |kwargs| == 0 then text
      else
        match Format(text, kwargs)
        case Formatted(s) => s
        case _ => text
  }

  /** Every key has a non-empty English and Japanese text. */
  lemma TableComplete()
    ensures forall key :: key in STRINGS ==> STRINGS[key].en != "" && STRINGS[key].ja != ""
  {
  }

  /** `t` on a key in the table with keywords: the text for `lang`,
    * formatted when formatting succeeds. */
  lemma TranslateFormatted(lang: string, key: string, kwargs: map<string, string>, text: string, out: string)
    requires key in STRINGS && EntryText(STRINGS[key], lang) == text
    requires |kwargs| > 0 && Format(text, kwargs) == Formatted(out)
    ensures Translate(lang, key, kwargs) == out
  {
  }

  /** ... and the text itself when formatting misses a keyword. */
  lemma TranslateUnformatted(lang: string, key: string, kwargs: map<string, string>, text: string, name: string)
    requires key in STRINGS && EntryText(STRINGS[key], lang) == text
    requires |kwargs| > 0 && Format(text, kwargs) == MissingKey(name)
    ensures Translate(lang, key, kwargs) == text
  {
  }

  lemma InvalidPathTemplate()
    ensures "history.invalid_path_msg" in STRINGS
    ensures STRINGS["history.invalid_path_msg"].en == "Folder does not exist:\n" + "{" + "path" + "}" + ""
  {
    assert STRINGS["history.invalid_path_msg"].en == "Folder does not exist:\n{path}";
    Split3("Folder does not exist:\n", "path", "");
  }

  lemma Split3(pre: string, name: string, post: string)
    ensures pre + "{" + name + "}" + post == pre + ("{" + name + "}") + post
  {
  }

  /** The invalid-path message gets its `{path}` filled in. */
  lemma TranslateInvalidPath(path: string)
    ensures Translate(LANG_EN, "history.invalid_path_msg", map["path" := path])
            == "Folder does not exist:\n" + path
  {
    var pre := "Folder does not exist:\n";
    InvalidPathTemplate();
    assert !IsDigit("path"[0]);
    FormatOneField(pre, "path", "", map["path" := path]);
    TranslateFormatted(LANG_EN, "history.invalid_path_msg", map["path" := path],
                       pre + "{" + "path" + "}" + "", pre + path + "");
  }

  /** With no `path` keyword the template comes back as it is. */
  lemma TranslateInvalidPathMissing(path: string)
    ensures Translate(LANG_EN, "history.invalid_path_msg", map["name" := path])
            == STRINGS["history.invalid_path_msg"].en
  {
    var pre := "Folder does not exist:\n";
    InvalidPathTemplate();
    assert !IsDigit("path"[0]);
    FormatOneField(pre, "path", "", map["name" := path]);
    TranslateUnformatted(LANG_EN, "history.invalid_path_msg", map["name" := path],
                         pre + "{" + "path" + "}" + "", "path");
  }

  lemma TranslateAccessibilityKey(lang: string)
    ensures Translate(lang, "error.accessibility_required", map[]) == "error.accessibility_required"
  {
  }

  // ---------------------------------------------------------------------

  /** What `locale.getdefaultlocale()[0]` gave: a code, `None`, or an
    * exception. */
  datatype LocaleReading = Code(code: Option<string>) | LookupFailed

  /** `detect_system_language`. */
  function DetectSystemLanguage(reading: LocaleReading): (r: string)
    ensures Supported(r)
    ensures r == LANG_JA <==> reading.Code? && reading.code.Some? && StartsWith(AsciiLower(reading.code.value), "ja")
  {
    match reading
    case LookupFailed => LANG_EN
    case Code(c) =>
      var code := if c.Some? then c.value else "";
      if StartsWith(AsciiLower(code), LANG_JA) then LANG_JA else LANG_EN
  }

  lemma DetectExamples()
    ensures DetectSystemLanguage(Code(Some("ja_JP"))) == LANG_JA
    ensures DetectSystemLanguage(Code(Some("JA"))) == LANG_JA
    ensures DetectSystemLanguage(Code(Some("en_US"))) == LANG_EN
    ensures DetectSystemLanguage(Code(None)) == LANG_EN
    ensures DetectSystemLanguage(LookupFailed) == LANG_EN
  {
    assert AsciiLower("ja_JP")[..2] == "ja";
    assert AsciiLower("JA")[..2] == "ja";
  }

  /** The module-level current language. */
  class Translator {
    var currentLang: string

    constructor ()
      ensures currentLang == LANG_EN
    {
      currentLang := LANG_EN;
    }

    method SetLanguage(lang: string)
      modifies this
      ensures currentLang == ChosenLanguage(lang)
    {
      if lang == LANG_EN || lang == LANG_JA {
        currentLang := lang;
      } else {
        currentLang := LANG_EN;
      }
    }

    method GetLanguage() returns (lang: string)
      ensures lang == currentLang
    {
      lang := currentLang;
    }

    /** `t` in the current language. */
    function T(key: string, kwargs: map<string, string>): string
      reads this
    {
      Translate(currentLang, key, kwargs)
    }

    /** `init`: detect the system language and set it. */
    method Init(reading: LocaleReading)
      modifies this
      ensures currentLang == DetectSystemLanguage(reading)
    {
      var lang := DetectSystemLanguage(reading);
      SetLanguage(lang);
    }
  }
}
