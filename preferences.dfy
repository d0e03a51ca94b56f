/** The application preferences: the interface language, restricted to the
    supported languages, with listeners told of every change. */
module Preferences {
  import opened Wrappers
  import opened Domain

  /** The name of the language preference in the preferences file. */
  const LANGUAGE_TAG: string := "language"

  datatype PreferencesError =
    | UnsupportedLanguage   // setLanguage with a language outside the supported list
    | NullValue             // a preference read without a value

  /** One call of a listener's onLanguageChanged: who was told, and what. */
  datatype LanguageNotification = LanguageNotification(listener: nat, language: Option<string>)

  /** Some supported language has the abbreviation `l`. */
  predicate Supported(languages: seq<Language>, l: string) {
    exists i :: 0 <= i < |languages| && languages[i].abbreviation == Some(l)
  }

  /** The calls one notification round makes: each listener once, in
      registration order, with the same language. */
  function LanguageNotifications(listeners: seq<nat>, language: Option<string>): (r: seq<LanguageNotification>)
    ensures |r| == |listeners|
    ensures forall i :: 0 <= i < |listeners| ==> r[i] == LanguageNotification(listeners[i], language)
  {
    if listeners == [] then []
    else LanguageNotifications(listeners[..|listeners| - 1], language)
         + [LanguageNotification(listeners[|listeners| - 1], language)]
  }

  /** The language chosen at start-up: the persisted one when the file exists
      and holds a supported language, the default one otherwise. */
  function StartupLanguage(supported: seq<Language>, defaultLanguage: string, persisted: bool,
                           persistedLanguage: Option<string>): (r: string)
    ensures r == defaultLanguage || (persisted && persistedLanguage == Some(r) && Supported(supported, r))
    ensures persisted && persistedLanguage.Some? && Supported(supported, persistedLanguage.value) ==>
              r == persistedLanguage.value
    ensures !persisted || persistedLanguage.None? ==> r == defaultLanguage
  {
    if persisted && persistedLanguage.Some? && Supported(supported, persistedLanguage.value)
    then persistedLanguage.value
    else defaultLanguage
  }

  class PreferencesManager {
    var language: Option<string>
    var listeners: seq<nat>
    var supportedLanguages: seq<Language>
    /** Every onLanguageChanged call made so far. */
    var notifications: seq<LanguageNotification>

    /** Every supported language has an abbreviation to compare with. */
    predicate Valid()
      reads this`supportedLanguages
    {
      forall i :: 0 <= i < |supportedLanguages| ==> supportedLanguages[i].abbreviation.Some?
    }

    /** getInstance on first use. The preferences file is read elsewhere:
        `persisted` says whether it exists and `persistedLanguage` is the
        language it holds, None when it cannot be read or holds none. A
        language that setLanguage refuses falls back to the default too. */
    constructor (supported: seq<Language>, defaultLanguage: string, persisted: bool,
                 persistedLanguage: Option<string>)
      requires forall i :: 0 <= i < |supported| ==> supported[i].abbreviation.Some?
      ensures Valid() && supportedLanguages == supported
      ensures language == Some(StartupLanguage(supported, defaultLanguage, persisted, persistedLanguage))
      ensures listeners == [] && notifications == []
    {
      supportedLanguages := supported;
      listeners := [];
      notifications := [];
      language := None;
      new;
      if persisted && persistedLanguage.Some? {
        var r := HandlePreference(LANGUAGE_TAG, persistedLanguage);
        if r.Fail? {
          language := Some(defaultLanguage);
        }
      } else {
        language := Some(defaultLanguage);
      }
    }

    /** isLanguageSupported: searches the supported list in order. */
    method IsLanguageSupported(l: string) returns (found: bool)
      requires Valid()
      ensures found <==> Supported(supportedLanguages, l)
    {
      var k := 0;
      found := false;
      while k < |supportedLanguages| && !found
        invariant 0 <= k <= |supportedLanguages|
        invariant found ==> Supported(supportedLanguages, l)
        invariant !found ==> forall j :: 0 <= j < k ==> supportedLanguages[j].abbreviation != Some(l)
      {
        if supportedLanguages[k].abbreviation.value == l {
          found := true;
        }
        k := k + 1;
      }
    }

    /** setLanguage: the same language changes nothing; an unsupported one
        fails and changes nothing; a supported one is stored and every
        listener is told once, in registration order. */
    method SetLanguage(l: string) returns (r: Outcome<PreferencesError>)
      requires Valid()
      modifies this`language, this`notifications
      ensures old(language) == Some(l) ==>
                r == Pass && language == old(language) && notifications == old(notifications)
      ensures old(language) != Some(l) && !Supported(supportedLanguages, l) ==>
                r == Fail(UnsupportedLanguage) && language == old(language) && notifications == old(notifications)
      ensures old(language) != Some(l) && Supported(supportedLanguages, l) ==>
                r == Pass && language == Some(l)
                && notifications == old(notifications) + LanguageNotifications(listeners, Some(l))
    {
      if language != Some(l) {
        var supported := IsLanguageSupported(l);
        if supported {
          language := Some(l);
          NotifyLanguageChanged();
        } else {
          return Fail(UnsupportedLanguage);
        }
      }
      return Pass;
    }

    /** registerPreferencesListener: appends, keeping the earlier listeners. */
    method RegisterPreferencesListener(pl: nat)
      modifies this`listeners
      ensures listeners == old(listeners) + [pl]
    {
      listeners := listeners + [pl];
    }

    /** notifyLanguageChanged: tells each listener the current language. */
    method NotifyLanguageChanged()
      modifies this`notifications
      ensures notifications == old(notifications) + LanguageNotifications(listeners, language)
    {
      var i := 0;
      while i < |listeners|
        invariant 0 <= i <= |listeners|
        invariant notifications == old(notifications) + LanguageNotifications(listeners[..i], language)
      {
        assert listeners[..i + 1][..i] == listeners[..i];
        notifications := notifications + [LanguageNotification(listeners[i], language)];
        i := i + 1;
      }
      assert listeners[..i] == listeners;
    }

    /** handlePreference: a missing value fails; the language preference goes
        through setLanguage; any other name is ignored. */
    method HandlePreference(name: string, value: Option<string>) returns (r: Outcome<PreferencesError>)
      requires Valid()
      modifies this`language, this`notifications
      ensures value.None? ==> r == Fail(NullValue) && language == old(language) && notifications == old(notifications)
      ensures value.Some? && name != LANGUAGE_TAG ==>
                r == Pass && language == old(language) && notifications == old(notifications)
      ensures value.Some? && name == LANGUAGE_TAG ==>
                var changed := old(language) != value && Supported(supportedLanguages, value.value);
                r == (if old(language) != value && !changed then Fail(UnsupportedLanguage) else Pass)
                && language == (if changed then value else old(language))
                && notifications == old(notifications) + (if changed then LanguageNotifications(listeners, value) else [])
    {
      if value.None? {
        return Fail(NullValue);
      }
      if name == LANGUAGE_TAG {
        r := SetLanguage(value.value);
      } else {
        r := Pass;
      }
    }
  }
}
