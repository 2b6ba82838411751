/** The social-link editor (src/components/SocialLinkEditor.tsx): its form
    fields, the required-field and URL checks that fill the error map, and the
    record handed to `onSave`. `new URL(...)` is the parameter `urlParses`. */
module LinkEditor {
  import opened Wrappers
  import opened Strings
  import opened Blog

  /** `Omit<SocialLink, 'id'> & { id?: string }`. */
  datatype LinkData = LinkData(id: Option<string>, platform: SocialPlatform, username: string, url: string)

  /** The error map `validate` builds, from the field values alone. */
  function ValidationErrors(username: string, url: string, urlParses: string -> bool): (r: map<string, string>)
    ensures r.Keys <= {"username", "url"}
    ensures "username" in r <==> Trim(username) == ""
    ensures "username" in r ==> r["username"] == "Username is required"
    ensures "url" in r <==> Trim(url) == "" || (StartsWith(url, "http") && !urlParses(url))
    ensures "url" in r ==>
              r["url"] == if StartsWith(url, "http") && !urlParses(url) then "Invalid URL format" else "URL is required"
  {
    var none: map<string, string> := map[];
    var withUser := if Trim(username) == "" then none["username" := "Username is required"] else none;
    var withUrl := if Trim(url) == "" then withUser["url" := "URL is required"] else withUser;
    if StartsWith(url, "http") && !urlParses(url) then withUrl["url" := "Invalid URL format"] else withUrl
  }

  /** A URL starting with `http` is never both blank and checked: the syntax
      check and the required check concern disjoint inputs. */
  lemma CheckedUrlIsNotBlank(url: string)
    requires StartsWith(url, "http")
    ensures Trim(url) != ""
  {
    assert url[0] == 'h' && !IsSpace(url[0]);
    TrimEmptyIff(url);
  }

  /** A record with a non-blank username and a relative (non-`http`) URL that
      is not blank is always accepted, whatever the URL parser says. */
  lemma RelativeUrlsAreNotParsed(username: string, url: string, urlParses: string -> bool)
    requires Trim(username) != "" && Trim(url) != "" && !StartsWith(url, "http")
    ensures ValidationErrors(username, url, urlParses) == map[]
  {
  }

  class Editor {
    /** The link being edited, if any (the `socialLink` prop). */
    const editing: Option<SocialLink>
    var platform: SocialPlatform
    var username: string
    var url: string
    var errors: map<string, string>

    /** The first render shows the defaults; the effect then copies the
        edited link's fields in. */
    constructor (editing: Option<SocialLink>)
      ensures this.editing == editing && errors == map[]
      ensures editing.None? ==> platform == Facebook && username == "" && url == ""
      ensures editing.Some? ==>
                platform == editing.value.platform && username == editing.value.username && url == editing.value.url
    {
      this.editing := editing;
      platform, username, url := Facebook, "", "";
      errors := map[];
      new;
      if editing.Some? {
        platform, username, url := editing.value.platform, editing.value.username, editing.value.url;
      }
    }

    method SetFields(platform: SocialPlatform, username: string, url: string)
      modifies this
      ensures this.platform == platform && this.username == username && this.url == url
      ensures errors == old(errors)
    {
      this.platform, this.username, this.url := platform, username, url;
    }

    /** `validate`: records the error map and reports whether it is empty. */
    method Validate(urlParses: string -> bool) returns (valid: bool)
      modifies this`errors
      ensures errors == ValidationErrors(username, url, urlParses)
      ensures valid <==> |errors| == 0
    {
      var newErrors := ValidationErrors(username, url, urlParses);
      errors := newErrors;
      valid := |newErrors| == 0;
    }

    /** `handleSubmit`: nothing is saved unless the form validates; the saved
        record carries the fields as typed (not trimmed) and an `id` only
        when the edited link has a non-empty one. */
    method Submit(urlParses: string -> bool) returns (saved: Option<LinkData>)
      modifies this`errors
      ensures errors == ValidationErrors(username, url, urlParses)
      ensures saved.Some? <==> |errors| == 0
      ensures saved.Some? ==>
                && saved.value.platform == platform && saved.value.username == username
                && saved.value.url == url
                && saved.value.id == if editing.Some? && editing.value.id != "" then Some(editing.value.id) else None
    {
      var valid := Validate(urlParses);
      if !valid {
        return None;
      }
      var data := LinkData(None, platform, username, url);
      if editing.Some? && editing.value.id != "" {
        data := data.(id := Some(editing.value.id));
      }
      saved := Some(data);
    }
  }
}
