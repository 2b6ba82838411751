/** The bio editor (src/components/BioEditor.tsx): one text per language,
    filled from the `bio` entry of the translations it is given, edited in the
    textarea of the selected tab, and saved as a map holding only `bio`. */
module BioEditor {
  import opened Blog
  import opened LanguageContext

  /** The translation keys the editor manages. */
  const BioKeys: seq<string> := ["bio"]

  /** `translations.bio?.en ?? ''` and `translations.bio?.vi ?? ''`. */
  function InitialBio(translations: Translations): (r: BilingualText)
    ensures "bio" in translations ==> r == translations["bio"]
    ensures "bio" !in translations ==> r.en == "" && r.vi == ""
  {
    if "bio" in translations then translations["bio"] else EmptyText
  }

  /** The map `handleSubmit` hands to `onSave`. */
  function Saved(en: string, vi: string): (r: Translations)
    ensures r.Keys == {"bio"} && r["bio"] == BilingualText(en, vi)
    ensures forall k :: k in r <==> k in BioKeys
  {
    map["bio" := BilingualText(en, vi)]
  }

  /** Saving without edits gives back the `bio` entry the editor was opened
      with, and nothing else of the translations it was given. */
  lemma SaveWithoutEdits(translations: Translations)
    requires "bio" in translations
    ensures var b := InitialBio(translations);
            Saved(b.en, b.vi) == map["bio" := translations["bio"]]
  {
    var b := InitialBio(translations);
    assert BilingualText(b.en, b.vi) == translations["bio"];
  }

  /** Once the saved map is merged into the site's table, `t('bio')` reads
      the saved text in either language, and every other key reads as
      before. */
  lemma SavedBioIsShown(table: Translations, en: string, vi: string, language: Language, key: string)
    ensures Lookup(Merge(table, Saved(en, vi)), language, "bio") == BilingualText(en, vi).In(language)
    ensures key != "bio" ==> Lookup(Merge(table, Saved(en, vi)), language, key) == Lookup(table, language, key)
  {
    MergedLookup(table, Saved(en, vi), language, "bio");
    MergedLookup(table, Saved(en, vi), language, key);
  }

  class Editor {
    var activeTab: Language
    var bioEn: string
    var bioVi: string

    /** The English tab is open first. */
    constructor (translations: Translations)
      ensures activeTab == En
      ensures BilingualText(bioEn, bioVi) == InitialBio(translations)
    {
      var b := InitialBio(translations);
      activeTab, bioEn, bioVi := En, b.en, b.vi;
    }

    /** A tab button: the texts stay as they are. */
    method SelectTab(l: Language)
      modifies this`activeTab
      ensures activeTab == l
    {
      activeTab := l;
    }

    /** Typing in the textarea shown, which is the selected tab's. */
    method Type(value: string)
      modifies this`bioEn, this`bioVi
      ensures BilingualText(bioEn, bioVi) == old(BilingualText(bioEn, bioVi)).With(activeTab, value)
    {
      if activeTab == En {
        bioEn := value;
      } else {
        bioVi := value;
      }
    }

    /** `handleSubmit`. */
    method Submit() returns (saved: Translations)
      ensures saved.Keys == {"bio"} && saved["bio"] == BilingualText(bioEn, bioVi)
    {
      saved := Saved(bioEn, bioVi);
    }
  }
}
