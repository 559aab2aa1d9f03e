// The application store: the interface language, the earned badges and the
// demo-mode flag.
module AppStore {

  /** `language === 'ko' ? 'en' : 'ko'`. */
  function ToggleLanguage(lang: string): (r: string)
    ensures lang == "ko" ==> r == "en"
    ensures lang != "ko" ==> r == "ko"
  {
    if lang == "ko" then "en" else "ko"
  }

  /** Toggling from Korean or English twice returns to it; any other
    * language becomes Korean on the first toggle and English on the
    * second, so it is never restored. */
  lemma ToggleLanguageTwice(lang: string)
    ensures lang == "ko" || lang == "en" ==> ToggleLanguage(ToggleLanguage(lang)) == lang
    ensures lang != "ko" && lang != "en" ==> ToggleLanguage(lang) == "ko" && ToggleLanguage(ToggleLanguage(lang)) == "en"
  {
  }

  predicate NoDuplicates(s: seq<string>)
  {
    forall i, j :: 0 <= i < j < |s| ==> s[i] != s[j]
  }

  /** `earnedBadges.includes(id) ? earnedBadges : [...earnedBadges, id]`. */
  function AddBadgeTo(badges: seq<string>, id: string): (r: seq<string>)
    ensures id in r
    ensures id in badges ==> r == badges
    ensures id !in badges ==> r == badges + [id]
  {
    if id in badges then badges else badges + [id]
  }

  /** Adding a badge twice is adding it once, and a list without duplicates
    * stays without duplicates. */
  lemma AddBadgeIdempotent(badges: seq<string>, id: string)
    ensures AddBadgeTo(AddBadgeTo(badges, id), id) == AddBadgeTo(badges, id)
    ensures NoDuplicates(badges) ==> NoDuplicates(AddBadgeTo(badges, id))
  {
  }

  class AppStoreState {
    var language: string
    var earnedBadges: seq<string>
    var isDemoMode: bool

    constructor()
      ensures language == "ko" && earnedBadges == [] && !isDemoMode
    {
      language := "ko";
      earnedBadges := [];
      isDemoMode := false;
    }

    method SetLanguage(lang: string)
      modifies this
      ensures language == lang && earnedBadges == old(earnedBadges) && isDemoMode == old(isDemoMode)
    {
      language := lang;
    }

    method ToggleLanguageAction()
      modifies this
      ensures language == ToggleLanguage(old(language))
      ensures earnedBadges == old(earnedBadges) && isDemoMode == old(isDemoMode)
    {
      language := if language == "ko" then "en" else "ko";
    }

    method ToggleDemoMode()
      modifies this
      ensures isDemoMode == !old(isDemoMode)
      ensures language == old(language) && earnedBadges == old(earnedBadges)
    {
      isDemoMode := !isDemoMode;
    }

    method AddBadge(id: string)
      modifies this
      ensures earnedBadges == AddBadgeTo(old(earnedBadges), id)
      ensures language == old(language) && isDemoMode == old(isDemoMode)
    {
      if id !in earnedBadges {
        earnedBadges := earnedBadges + [id];
      }
    }
  }
}
