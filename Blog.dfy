/** The blog's data model: languages, bilingual text, posts and social links. */
module Blog {
  import opened Wrappers

  /** The two languages of the site, `'en' | 'vi'`. */
  datatype Language = En | Vi

  function LanguageCode(l: Language): string {
    match l
    case En => "en"
    case Vi => "vi"
  }

  /** Reads a language code; every string other than the two codes is refused. */
  function ParseLanguage(s: string): (r: Option<Language>)
    ensures r.Some? ==> LanguageCode(r.value) == s
  {
    if s == "en" then Some(En) else if s == "vi" then Some(Vi) else None
  }

  /** The two codes are the only languages: reading a code back gives the
      language, and no other string names one. */
  lemma LanguageCodeRoundTrip(l: Language, s: string)
    ensures ParseLanguage(LanguageCode(l)) == Some(l)
    ensures ParseLanguage(s).Some? <==> s in {"en", "vi"}
  {
  }

  /** A field written in both languages; both halves are required. */
  datatype BilingualText = BilingualText(en: string, vi: string)
  {
    /** The half shown in language `l`, `text[language]`. */
    function In(l: Language): string {
      match l
      case En => en
      case Vi => vi
    }

    /** `{ ...text, [l]: value }`: replaces one half and keeps the other. */
    function With(l: Language, value: string): (r: BilingualText)
      ensures r.In(l) == value
      ensures forall m :: m != l ==> r.In(m) == In(m)
    {
      match l
      case En => BilingualText(value, vi)
      case Vi => BilingualText(en, value)
    }
  }

  const EmptyText := BilingualText("", "")

  /** A blog post. `imageUrl` is the only optional field. */
  datatype BlogPost = BlogPost(
    id: string,
    title: BilingualText,
    excerpt: BilingualText,
    content: BilingualText,
    date: string,
    readTime: int,
    imageUrl: Option<string>,
    categories: seq<string>)

  /** The seven platforms a social link may point at. */
  datatype SocialPlatform = Facebook | Instagram | Github | Twitter | LinkedIn | Youtube | Other

  const AllPlatforms: seq<SocialPlatform> :=
    [Facebook, Instagram, Github, Twitter, LinkedIn, Youtube, Other]

  function PlatformName(p: SocialPlatform): string {
    match p
    case Facebook => "Facebook"
    case Instagram => "Instagram"
    case Github => "Github"
    case Twitter => "Twitter"
    case LinkedIn => "LinkedIn"
    case Youtube => "Youtube"
    case Other => "Other"
  }

  function ParsePlatform(s: string): (r: Option<SocialPlatform>)
    ensures r.Some? ==> PlatformName(r.value) == s
  {
    if s == "Facebook" then Some(Facebook)
    else if s == "Instagram" then Some(Instagram)
    else if s == "Github" then Some(Github)
    else if s == "Twitter" then Some(Twitter)
    else if s == "LinkedIn" then Some(LinkedIn)
    else if s == "Youtube" then Some(Youtube)
    else if s == "Other" then Some(Other)
    else None
  }

  /** Exactly seven platforms, each named by a distinct string that reads back
      as the same platform. */
  lemma PlatformsComplete(p: SocialPlatform)
    ensures p in AllPlatforms
    ensures |AllPlatforms| == 7
    ensures forall i, j :: 0 <= i < j < |AllPlatforms| ==> AllPlatforms[i] != AllPlatforms[j]
    ensures ParsePlatform(PlatformName(p)) == Some(p)
  {
  }

  /** A social link shown in the footer; every field is required. */
  datatype SocialLink = SocialLink(id: string, platform: SocialPlatform, username: string, url: string)
}
