/**
 * The interface-language menu of `src/components/LanguageSelector.tsx`: the
 * language chosen on the first render, the stored preference, and the
 * open/closed menu with its keyboard handling. The browser's language tag is
 * an input and `localStorage` is a map field.
 */
module LanguageSelector {
  import opened JsText

  const PreferenceKey := "preferredLanguage"

  /** `localStorage.getItem(key)`: null for a missing key. */
  function GetItem(storage: map<string, string>, key: string): (r: Option<string>)
    ensures r.Some? <==> key in storage
    ensures r.Some? ==> r.value == storage[key]
  {
    if key in storage then Some(storage[key]) else None
  }

  /**
   * The language after the first-render effect: a truthy saved preference;
   * otherwise the part of the browser tag before its first '-' when it is
   * "fr" or "en"; otherwise the language already in use.
   */
  function InitialLanguage(saved: Option<string>, browserTag: string, current: string): (l: string)
    ensures Truthy(saved) ==> l == saved.value
    ensures !Truthy(saved) ==> l == current || l == "fr" || l == "en"
    ensures !Truthy(saved) && l != current ==> StartsWith(browserTag, l) && (|l| == |browserTag| || browserTag[|l|] == '-')
    ensures !Truthy(saved) && FirstToken(browserTag, '-') in {"fr", "en"} ==> l == FirstToken(browserTag, '-')
    ensures !Truthy(saved) && FirstToken(browserTag, '-') !in {"fr", "en"} ==> l == current
  {
    if Truthy(saved) then saved.value
    else
      var browserLanguage := FirstToken(browserTag, '-');
      if browserLanguage == "fr" || browserLanguage == "en" then browserLanguage else current
  }

  /** A regional tag selects its language when no preference is stored. */
  lemma RegionalTag(current: string)
    ensures InitialLanguage(None, "fr-FR", current) == "fr"
    ensures InitialLanguage(None, "en-US", current) == "en"
    ensures InitialLanguage(None, "de-DE", current) == current
  {
    FirstTokenOfConcat("fr", "-FR", '-');
    FirstTokenOfConcat("en", "-US", '-');
    FirstTokenOfConcat("de", "-DE", '-');
    assert "fr" + "-FR" == "fr-FR" && "en" + "-US" == "en-US" && "de" + "-DE" == "de-DE";
  }

  /** A chosen language is stored so that it wins on the next first render, whatever the browser says. */
  lemma PreferenceWinsOnReload(storage: map<string, string>, lng: string, browserTag: string, current: string)
    requires lng != ""
    ensures InitialLanguage(GetItem(storage[PreferenceKey := lng], PreferenceKey), browserTag, current) == lng
  {
  }

  class LanguageMenu {
    var language: string
    var storage: map<string, string>
    var isOpen: bool

    /** The menu starts closed. */
    constructor(language0: string, storage0: map<string, string>)
      ensures language == language0 && storage == storage0 && !isOpen
    {
      language := language0;
      storage := storage0;
      isOpen := false;
    }

    /** The effect run after the first render. */
    method DetectLanguage(browserTag: string)
      modifies this
      ensures language == InitialLanguage(GetItem(old(storage), PreferenceKey), browserTag, old(language))
      ensures storage == old(storage) && isOpen == old(isOpen)
    {
      var savedLanguage := GetItem(storage, PreferenceKey);
      if Truthy(savedLanguage) {
        language := savedLanguage.value;
      } else {
        var browserLanguage := FirstToken(browserTag, '-');
        if browserLanguage == "fr" || browserLanguage == "en" {
          language := browserLanguage;
        }
      }
    }

    /** `changeLanguage(lng)`: switch, remember, close. */
    method ChangeLanguage(lng: string)
      modifies this
      ensures language == lng
      ensures storage == old(storage)[PreferenceKey := lng]
      ensures !isOpen
    {
      language := lng;
      storage := storage[PreferenceKey := lng];
      isOpen := false;
    }

    /** A click on the menu button. */
    method ToggleClick()
      modifies this
      ensures isOpen == !old(isOpen)
      ensures language == old(language) && storage == old(storage)
    {
      isOpen := !isOpen;
    }

    /** A key pressed on the menu button: Escape closes, Enter and space toggle. */
    method ToggleKeyDown(key: string)
      modifies this
      ensures isOpen == (if key == "Escape" then false
                         else if key == "Enter" || key == " " then !old(isOpen)
                         else old(isOpen))
      ensures language == old(language) && storage == old(storage)
    {
      var wasOpen := isOpen;
      if key == "Escape" {
        isOpen := false;
      }
      if key == "Enter" || key == " " {
        isOpen := !wasOpen;
      }
    }

    /** A click on the menu entry for `code`. */
    method ItemClick(code: string)
      modifies this
      ensures language == code && storage == old(storage)[PreferenceKey := code] && !isOpen
    {
      ChangeLanguage(code);
    }

    /** A key pressed on a menu entry: Enter and space act as a click, other keys do nothing. */
    method ItemKeyDown(code: string, key: string)
      modifies this
      ensures key == "Enter" || key == " " ==>
        language == code && storage == old(storage)[PreferenceKey := code] && !isOpen
      ensures !(key == "Enter" || key == " ") ==>
        language == old(language) && storage == old(storage) && isOpen == old(isOpen)
    {
      if key == "Enter" || key == " " {
        ChangeLanguage(code);
      }
    }
  }
}
