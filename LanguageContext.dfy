/** The language context (src/context/LanguageContext.tsx): the current
    language, the bilingual translation table with its key-fallback lookup,
    the merge of the bio texts loaded from the API, and wholesale replacement. */
module LanguageContext {
  import opened Wrappers
  import opened Blog

  type Translations = map<string, BilingualText>

  /** The table the site starts with. */
  const InitialTranslations: Translations := map[
      "readMore" := BilingualText("Read more",
                             "Đọc thêm"),
      "backToHome" := BilingualText("Back to Home",
                             "Quay lại trang chủ"),
      "minRead" := BilingualText("min read",
                             "phút đọc"),
      "about" := BilingualText("About",
                             "Giới thiệu"),
      "blog" := BilingualText("Blog",
                             "Blog"),
      "latestPosts" := BilingualText("Latest Posts",
                             "Bài viết mới nhất"),
      "noPosts" := BilingualText("No posts found.",
                             "Không tìm thấy bài viết nào."),
      "copyright" := BilingualText("All rights reserved.",
                             "Đã đăng ký bản quyền."),
      "nav_blog" := BilingualText("Blog",
                             "Blog"),
      "nav_books" := BilingualText("Books",
                             "Sách"),
      "nav_movies" := BilingualText("Movies",
                             "Phim"),
      "nav_study" := BilingualText("Study",
                             "Học tập"),
      "nav_ai" := BilingualText("AI",
                             "AI"),
      "nav_diary" := BilingualText("Daily Diary",
                             "Nhật kí"),
      "nav_finance" := BilingualText("Finance",
                             "Tài chính"),
      "bio1" := BilingualText("I'm Chip Huyen, a writer and computer scientist. I grew up chasing grasshoppers in a small rice-farming village in Vietnam.",
                             "Tôi là Chip Huyen, một nhà văn và nhà khoa học máy tính. Tôi lớn lên với việc đuổi bắt châu chấu tại một ngôi làng trồng lúa nhỏ ở Việt Nam."),
      "bio2" := BilingualText("My focus is on ML/AI systems in production. I'm currently exploring creative use cases of AI in education and entertainment.",
                             "Trọng tâm của tôi là các hệ thống ML/AI trong sản xuất. Hiện tôi đang khám phá các trường hợp sử dụng sáng tạo của AI trong giáo dục và giải trí."),
      "bio3_1" := BilingualText("Previously, I worked on ML tooling at NVIDIA (core dev of ",
                             "Trước đây, tôi làm việc về công cụ ML tại NVIDIA (nhà phát triển cốt lõi của "),
      "bio3_2" := BilingualText("), Snorkel AI, and Netflix. I also founded and sold an AI infra startup.",
                             "), Snorkel AI và Netflix. Tôi cũng đã thành lập và bán một công ty khởi nghiệp về hạ tầng AI."),
      "bio4_1" := BilingualText("Running a startup taught me that being a founder is incredibly hard, so I try to support founders in any way I can. Some startups I've worked with included ",
                             "Việc điều hành một công ty khởi nghiệp đã dạy tôi rằng làm người sáng lập cực kỳ khó khăn, vì vậy tôi cố gắng hỗ trợ các nhà sáng lập bằng mọi cách có thể. Một số startup tôi đã làm việc cùng bao gồm "),
      "bio4_comma" := BilingualText(", ",
                             ", "),
      "bio4_and" := BilingualText(", and ",
                             " và "),
      "bio4_end" := BilingualText(".",
                             "."),
      "bio5_1" := BilingualText("I graduated from Stanford, where I taught ",
                             "Tôi tốt nghiệp Stanford, nơi tôi đã dạy "),
      "bio5_link1" := BilingualText("ML Systems",
                             "Hệ thống ML"),
      "bio5_2" := BilingualText(". The lectures became the foundation for the book ",
                             ". Các bài giảng đã trở thành nền tảng cho cuốn sách "),
      "bio5_link2" := BilingualText("Designing Machine Learning Systems",
                             "Thiết kế Hệ thống Học máy"),
      "bio5_3" := BilingualText(", which is an Amazon #1 bestseller in AI and has been translated into 10+ languages (very proud)!",
                             ", là cuốn sách bán chạy số 1 trên Amazon về AI và đã được dịch sang hơn 10 ngôn ngữ (rất tự hào)!"),
      "bio6_1" := BilingualText("My new book ",
                             "Cuốn sách mới của tôi "),
      "bio6_strong" := BilingualText("AI Engineering",
                             "Kỹ thuật AI"),
      "bio6_2" := BilingualText(" (2025) is currently the most read book on the ",
                             " (2025) hiện là cuốn sách được đọc nhiều nhất trên nền tảng "),
      "bio6_3" := BilingualText(" platform. It's also available on ",
                             ". Nó cũng có sẵn trên "),
      "bio6_4" := BilingualText(" and ",
                             " và "),
      "bio6_5" := BilingualText(".",
                             "."),
      "bio7_1" := BilingualText("I'm active on ",
                             "Tôi hoạt động tích cực trên "),
      "bio7_2" := BilingualText(" and aspire to become a ",
                             " và khao khát trở thành một người có ảnh hưởng trên "),
      "bio7_3" := BilingualText(" influencer. You can also find me on ",
                             ". Bạn cũng có thể tìm thấy tôi trên "),
      "bio7_4" := BilingualText(". I frequently speak at and occasionally host ",
                             ". Tôi thường xuyên phát biểu tại và thỉnh thoảng tổ chức các "),
      "bio7_link_events" := BilingualText("events",
                             "sự kiện"),
      "bio7_5" := BilingualText(".",
                             "."),
      "bio8_1" := BilingualText("I enjoy learning about fun technical challenges and collaborating with great teams. ",
                             "Tôi thích tìm hiểu về những thách thức kỹ thuật thú vị và hợp tác với các đội ngũ tuyệt vời. "),
      "bio8_link" := BilingualText("Reach out",
                             "Hãy liên hệ"),
      "bio8_2" := BilingualText(" if you want to find a way to work together!",
                             " nếu bạn muốn tìm cách làm việc cùng nhau!")
    ]

  /** `t(key)`: the entry's text in the current language, or the key itself
      when the table has no entry. */
  function Lookup(table: Translations, language: Language, key: string): (r: string)
    ensures key !in table ==> r == key
    ensures key in table ==> r == table[key].In(language)
  {
    if key in table then table[key].In(language) else key
  }

  /** `{ ...prev, ...fromApi }`: API entries win, every other entry stays. */
  function Merge(prev: Translations, fromApi: Translations): (r: Translations)
    ensures r.Keys == prev.Keys + fromApi.Keys
    ensures forall k :: k in fromApi ==> r[k] == fromApi[k]
    ensures forall k :: k in prev && k !in fromApi ==> r[k] == prev[k]
  {
    prev + fromApi
  }

  /** After a merge, a key the API supplied reads the API's text; any other
      key reads as it did before, including the key-itself fallback. */
  lemma MergedLookup(prev: Translations, fromApi: Translations, language: Language, key: string)
    ensures key in fromApi ==> Lookup(Merge(prev, fromApi), language, key) == fromApi[key].In(language)
    ensures key !in fromApi ==> Lookup(Merge(prev, fromApi), language, key) == Lookup(prev, language, key)
  {
  }

  /** The initial table has no `bio` entry, so `t('bio')` is `'bio'` until the
      API supplies one. */
  lemma NoInitialBio(language: Language)
    ensures Lookup(InitialTranslations, language, "bio") == "bio"
  {
  }

  class LanguageState {
    var language: Language
    var translations: Translations

    /** The site starts in Vietnamese with the initial table. */
    constructor ()
      ensures language == Vi && translations == InitialTranslations
    {
      language := Vi;
      translations := InitialTranslations;
    }

    method SetLanguage(l: Language)
      modifies this
      ensures language == l && translations == old(translations)
    {
      language := l;
    }

    /** The effect run when the API bio arrives: an absent or empty map
        changes nothing. */
    method MergeBio(fromApi: Option<Translations>)
      modifies this
      ensures fromApi.Some? && |fromApi.value| > 0 ==> translations == Merge(old(translations), fromApi.value)
      ensures fromApi.None? || |fromApi.value| == 0 ==> translations == old(translations)
      ensures language == old(language)
    {
      if fromApi.Some? && |fromApi.value| > 0 {
        translations := Merge(translations, fromApi.value);
      }
    }

    /** `updateTranslations`: the whole table is replaced. */
    method UpdateTranslations(table: Translations)
      modifies this
      ensures translations == table && language == old(language)
    {
      translations := table;
    }

  }
}
