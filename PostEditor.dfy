/** The post editor's form state (src/components/PostEditor.tsx): the initial
    form, the per-field updates, the category toggle, the image and submit
    guards, and the Vietnamese-to-English translation update. */
module PostEditor {
  import opened Wrappers
  import opened Strings
  import opened Blog
  import opened PostSearch

  /** The categories the editor offers. */
  const AvailableCategories: seq<string> := ["Sách", "Phim", "Học tập", "AI", "Nhật kí", "Tài chính"]

  /** `Omit<BlogPost, 'id'> & { id?: string }` as the form holds it. */
  datatype PostForm = PostForm(
    id: Option<string>,
    title: BilingualText,
    excerpt: BilingualText,
    content: BilingualText,
    categories: seq<string>,
    date: string,
    readTime: int,
    imageUrl: string)

  /** The three bilingual fields. */
  datatype TextField = Title | Excerpt | Content

  function TextOf(form: PostForm, f: TextField): BilingualText {
    match f
    case Title => form.title
    case Excerpt => form.excerpt
    case Content => form.content
  }

  /** The defaults, overridden by every field the edited post has. `today` is
      the `YYYY-MM-DD` part of the current time. */
  function InitialForm(post: Option<BlogPost>, today: string): (r: PostForm)
    ensures post.None? ==>
              && r.id.None? && r.title == EmptyText && r.excerpt == EmptyText && r.content == EmptyText
              && r.categories == [] && r.date == today && r.readTime == 5 && r.imageUrl == ""
    ensures post.Some? ==>
              && r.id == Some(post.value.id)
              && r.title == post.value.title && r.excerpt == post.value.excerpt
              && r.content == post.value.content && r.categories == post.value.categories
              && r.date == post.value.date && r.readTime == post.value.readTime
              && r.imageUrl == post.value.imageUrl.GetOr("")
  {
    var defaults := PostForm(None, EmptyText, EmptyText, EmptyText, [], today, 5, "");
    match post
    case None => defaults
    case Some(p) =>
      defaults.(id := Some(p.id), title := p.title, excerpt := p.excerpt, content := p.content,
                categories := p.categories, date := p.date, readTime := p.readTime,
                imageUrl := if p.imageUrl.Some? then p.imageUrl.value else defaults.imageUrl)
  }

  /** `handleChange(field, value, lang)` with a language and a string: one
      half of one bilingual field changes, and nothing else. */
  function WithText(form: PostForm, f: TextField, l: Language, value: string): (r: PostForm)
    ensures TextOf(r, f).In(l) == value
    ensures forall m :: m != l ==> TextOf(r, f).In(m) == TextOf(form, f).In(m)
    ensures forall g :: g != f ==> TextOf(r, g) == TextOf(form, g)
    ensures r.id == form.id && r.categories == form.categories && r.date == form.date
    ensures r.readTime == form.readTime && r.imageUrl == form.imageUrl
  {
    match f
    case Title => form.(title := form.title.With(l, value))
    case Excerpt => form.(excerpt := form.excerpt.With(l, value))
    case Content => form.(content := form.content.With(l, value))
  }

  /** The value `handleChange` is given without a language, for each field it
      is called with. */
  datatype FieldValue =
    | DateValue(date: string)
    | ReadTimeValue(readTime: int)
    | ImageUrlValue(imageUrl: string)
    | CategoriesValue(categories: seq<string>)

  /** `handleChange(field, value)` without a language: the field's value is
      replaced wholesale, and nothing else changes. */
  function WithField(form: PostForm, v: FieldValue): (r: PostForm)
    ensures r.id == form.id && r.title == form.title && r.excerpt == form.excerpt && r.content == form.content
    ensures r.date == (if v.DateValue? then v.date else form.date)
    ensures r.readTime == (if v.ReadTimeValue? then v.readTime else form.readTime)
    ensures r.imageUrl == (if v.ImageUrlValue? then v.imageUrl else form.imageUrl)
    ensures r.categories == (if v.CategoriesValue? then v.categories else form.categories)
  {
    match v
    case DateValue(d) => form.(date := d)
    case ReadTimeValue(n) => form.(readTime := n)
    case ImageUrlValue(u) => form.(imageUrl := u)
    case CategoriesValue(cs) => form.(categories := cs)
  }

  // ---------------------------------------------------------------------------
  // The category toggle

  /** `cs.filter(x => x !== c)`. */
  function RemoveAll(cs: seq<string>, c: string): (r: seq<string>)
    ensures forall x :: x in r <==> x in cs && x != c
    ensures IsSubsequence(r, cs)
    ensures multiset(r) == multiset(cs)[c := 0]
    ensures |r| <= |cs|
    ensures c !in cs ==> r == cs
  {
    if cs == [] then []
    else
      var rest := RemoveAll(cs[1..], c);
      assert cs == [cs[0]] + cs[1..];
      assert forall x :: x in cs <==> x == cs[0] || x in cs[1..];
      assert multiset(cs) == multiset{cs[0]} + multiset(cs[1..]);
      if cs[0] == c then rest
      else
        assert ([cs[0]] + rest)[1..] == rest;
        [cs[0]] + rest
  }

  /** `handleCategoryToggle`: a present category is removed everywhere it
      occurs; an absent one is appended at the end. */
  function ToggleCategory(cs: seq<string>, c: string): (r: seq<string>)
    ensures c in cs ==> c !in r && forall x :: x != c ==> (x in r <==> x in cs)
    ensures c in cs ==> IsSubsequence(r, cs) && multiset(r) == multiset(cs)[c := 0]
    ensures c !in cs ==> r == cs + [c]
  {
    if c in cs then RemoveAll(cs, c) else cs + [c]
  }

  /** Toggling twice restores membership of every category (though a
      category that was present moves to the end). */
  lemma ToggleTwiceRestoresMembership(cs: seq<string>, c: string)
    ensures forall x :: x in ToggleCategory(ToggleCategory(cs, c), c) <==> x in cs
    ensures c !in cs ==> ToggleCategory(ToggleCategory(cs, c), c) == cs
  {
    var once := ToggleCategory(cs, c);
    if c in cs {
      assert ToggleCategory(once, c) == once + [c];
    } else {
      assert once == cs + [c];
      RemoveAllAppended(cs, c);
    }
  }

  lemma {:induction false} RemoveAllAppended(cs: seq<string>, c: string)
    requires c !in cs
    ensures RemoveAll(cs + [c], c) == cs
  {
    if cs == [] {
      assert [] + [c] == [c];
    } else {
      assert (cs + [c])[1..] == cs[1..] + [c];
      RemoveAllAppended(cs[1..], c);
      assert cs == [cs[0]] + cs[1..];
    }
  }

  // ---------------------------------------------------------------------------
  // Guards

  /** The outcome of `handleImageUpload`'s checks. */
  datatype ImageCheck = Refused(alert: string) | Read

  const MaxImageBytes := 5 * 1024 * 1024

  /** The type is checked before the size: only a file whose MIME type
      starts with `image/` and whose size is at most 5 MiB is read. */
  function CheckImage(mimeType: string, size: int): (r: ImageCheck)
    ensures r.Read? <==> StartsWith(mimeType, "image/") && size <= 5242880
    ensures !StartsWith(mimeType, "image/") ==> r == Refused("Please upload an image file")
    ensures StartsWith(mimeType, "image/") && size > 5242880 ==> r == Refused("File size must be less than 5MB")
  {
    if !StartsWith(mimeType, "image/") then Refused("Please upload an image file")
    else if size > MaxImageBytes then Refused("File size must be less than 5MB")
    else Read
  }

  /** The three Vietnamese texts sent for translation, or `None` when all
      three are blank and the editor refuses. */
  function TranslationRequest(form: PostForm): (r: Option<(string, string, string)>)
    ensures r.None? <==> Trim(form.title.vi) == "" && Trim(form.excerpt.vi) == "" && Trim(form.content.vi) == ""
    ensures r.Some? ==> r.value == (form.title.vi, form.excerpt.vi, form.content.vi)
  {
    if Trim(form.title.vi) == "" && Trim(form.excerpt.vi) == "" && Trim(form.content.vi) == "" then None
    else Some((form.title.vi, form.excerpt.vi, form.content.vi))
  }

  /** The translation result written into the form: the English halves take
      the translated texts, everything else stays. */
  function WithEnglish(form: PostForm, title: string, excerpt: string, content: string): (r: PostForm)
    ensures r.title.en == title && r.excerpt.en == excerpt && r.content.en == content
    ensures forall f :: TextOf(r, f).vi == TextOf(form, f).vi
    ensures r.id == form.id && r.categories == form.categories && r.date == form.date
    ensures r.readTime == form.readTime && r.imageUrl == form.imageUrl
  {
    WithText(WithText(WithText(form, Title, En, title), Excerpt, En, excerpt), Content, En, content)
  }

  class Editor {
    var form: PostForm
    var activeTab: Language

    constructor (post: Option<BlogPost>, today: string)
      ensures form == InitialForm(post, today) && activeTab == En
    {
      form := InitialForm(post, today);
      activeTab := En;
    }

    method ChangeText(f: TextField, l: Language, value: string)
      modifies this
      ensures form == WithText(old(form), f, l, value) && activeTab == old(activeTab)
    {
      form := WithText(form, f, l, value);
    }

    method ChangeField(v: FieldValue)
      modifies this
      ensures form == WithField(old(form), v) && activeTab == old(activeTab)
    {
      form := WithField(form, v);
    }

    method Toggle(c: string)
      modifies this
      ensures form == old(form).(categories := ToggleCategory(old(form.categories), c))
      ensures activeTab == old(activeTab)
    {
      form := form.(categories := ToggleCategory(form.categories, c));
    }

    method SelectTab(l: Language)
      modifies this
      ensures activeTab == l && form == old(form)
    {
      activeTab := l;
    }

    /** `handleImageUpload`: the file's data URL (read by the browser and
        given here) becomes the image only when the checks pass. */
    method UploadImage(mimeType: string, size: int, dataUrl: string) returns (check: ImageCheck)
      modifies this
      ensures check == CheckImage(mimeType, size)
      ensures check.Read? ==> form == old(form).(imageUrl := dataUrl)
      ensures check.Refused? ==> form == old(form)
      ensures activeTab == old(activeTab)
    {
      check := CheckImage(mimeType, size);
      if check.Read? {
        form := WithField(form, ImageUrlValue(dataUrl));
      }
    }

    method RemoveImage()
      modifies this
      ensures form == old(form).(imageUrl := "") && activeTab == old(activeTab)
    {
      form := WithField(form, ImageUrlValue(""));
    }

    /** `handleTranslateViToEn`: `sent` is what goes to the translation
        service; `answer` is its reply, `None` when the call failed. */
    method TranslateViToEn(answer: Option<(string, string, string)>) returns (sent: Option<(string, string, string)>)
      modifies this
      ensures sent == TranslationRequest(old(form))
      ensures sent.Some? && answer.Some? ==>
                form == WithEnglish(old(form), answer.value.0, answer.value.1, answer.value.2) && activeTab == En
      ensures sent.None? || answer.None? ==> form == old(form) && activeTab == old(activeTab)
    {
      sent := TranslationRequest(form);
      if sent.Some? && answer.Some? {
        form := WithEnglish(form, answer.value.0, answer.value.1, answer.value.2);
        activeTab := En;
      }
    }

    /** `handleSubmit`: the form is handed to `onSave` only when at least one
        category is selected. */
    method Submit() returns (saved: Option<PostForm>)
      ensures saved.Some? <==> |form.categories| > 0
      ensures saved.Some? ==> saved.value == form
    {
      if |form.categories| == 0 {
        saved := None;
      } else {
        saved := Some(form);
      }
    }
  }
}
