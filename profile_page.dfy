/**
 * The profile page's client-side rules (Frontend/src/page/Profile.jsx): the
 * 30-word limit on a video description, the functional `setProfile`
 * updaters, and the three submit handlers that decide from the server's
 * reply whether to apply them.  Rendering is not modelled.
 *
 * Strings are sequences of Unicode characters; JavaScript's `trim` and the
 * regular expression class `\s` remove and match the same set of
 * whitespace characters, `IsSpace`.
 */
module ProfilePage {
  import opened Wrappers
  import opened Http

  /** The whitespace of `String.prototype.trim` and of `\s`: the line terminators and the Unicode space separators. */
  predicate IsSpace(c: char)
  {
    var n := c as int;
    (9 <= n <= 13) || n == 0x20 || n == 0xA0 || n == 0x1680 || (0x2000 <= n <= 0x200A) ||
    n == 0x2028 || n == 0x2029 || n == 0x202F || n == 0x205F || n == 0x3000 || n == 0xFEFF
  }

  predicate AllSpace(s: string)
  {
    forall i :: 0 <= i < |s| ==> IsSpace(s[i])
  }

  predicate NoSpace(s: string)
  {
    forall i :: 0 <= i < |s| ==> !IsSpace(s[i])
  }

  /** Neither end of `s` is whitespace. */
  predicate Trimmed(s: string)
  {
    s == [] || (!IsSpace(s[0]) && !IsSpace(s[|s| - 1]))
  }

  /** The leading-whitespace half of `trim`. */
  function TrimStart(s: string): (r: string)
    ensures |r| <= |s|
  {
    if s == [] || !IsSpace(s[0]) then s else TrimStart(s[1..])
  }

  /** The trailing-whitespace half of `trim`. */
  function TrimEnd(s: string): (r: string)
    ensures |r| <= |s|
  {
    if s == [] || !IsSpace(s[|s| - 1]) then s else TrimEnd(s[..|s| - 1])
  }

  /** `TrimStart` removes a whitespace prefix and stops at a non-space. */
  lemma {:induction false} TrimStartDropsLeadingSpace(s: string)
    ensures var r := TrimStart(s);
      && r == s[|s| - |r|..] && AllSpace(s[..|s| - |r|])
      && (r == [] || !IsSpace(r[0]))
  {
    if s != [] && IsSpace(s[0]) {
      var r := TrimStart(s[1..]);
      TrimStartDropsLeadingSpace(s[1..]);
      assert s[..|s| - |r|] == [s[0]] + s[1..][..|s| - 1 - |r|];
    }
  }

  /** `TrimEnd` removes a whitespace suffix and stops at a non-space. */
  lemma {:induction false} TrimEndDropsTrailingSpace(s: string)
    ensures var r := TrimEnd(s);
      && r == s[..|r|] && AllSpace(s[|r|..])
      && (r == [] || !IsSpace(r[|r| - 1]))
  {
    if s != [] && IsSpace(s[|s| - 1]) {
      var r := TrimEnd(s[..|s| - 1]);
      TrimEndDropsTrailingSpace(s[..|s| - 1]);
      assert s[|r|..] == s[..|s| - 1][|r|..] + [s[|s| - 1]];
    }
  }

  /** `s.trim()`. */
  function Trim(s: string): (r: string)
    ensures |r| <= |s|
  {
    TrimEnd(TrimStart(s))
  }

  /** `trim` removes only whitespace, and all of it at both ends: `s` is whitespace, then `s.trim()`, then whitespace. */
  lemma TrimRemovesOnlySpace(s: string) returns (lead: string, trail: string)
    ensures Trimmed(Trim(s))
    ensures AllSpace(lead) && AllSpace(trail)
    ensures s == lead + Trim(s) + trail
  {
    var t := TrimStart(s);
    var r := TrimEnd(t);
    TrimStartDropsLeadingSpace(s);
    TrimEndDropsTrailingSpace(t);
    lead := s[..|s| - |t|];
    trail := t[|r|..];
    assert s == lead + t;
    assert t == r + trail;
    assert lead + (r + trail) == lead + r + trail;
    if r != [] {
      assert t[0] == (r + trail)[0];
    }
  }

  /** The first whitespace position at or after `i`, or `|t|`. */
  function NextSpace(t: string, i: nat): (j: nat)
    requires i <= |t|
    decreases |t| - i
    ensures i <= j <= |t|
  {
    if i == |t| || IsSpace(t[i]) then i else NextSpace(t, i + 1)
  }

  /** The first non-whitespace position at or after `i`, or `|t|`; it moves past a space at `i`. */
  function SkipSpaces(t: string, i: nat): (j: nat)
    requires i <= |t|
    decreases |t| - i
    ensures i <= j <= |t|
    ensures i < |t| && IsSpace(t[i]) ==> i < j
  {
    if i == |t| || !IsSpace(t[i]) then i else SkipSpaces(t, i + 1)
  }

  /** `NextSpace` passes over non-whitespace only and stops at whitespace or the end. */
  lemma {:induction false} NextSpaceSkipsAWord(t: string, i: nat)
    requires i <= |t|
    decreases |t| - i
    ensures var j := NextSpace(t, i); NoSpace(t[i..j]) && (j < |t| ==> IsSpace(t[j]))
  {
    if i < |t| && !IsSpace(t[i]) {
      NextSpaceSkipsAWord(t, i + 1);
      assert t[i..NextSpace(t, i)] == [t[i]] + t[i + 1..NextSpace(t, i)];
    }
  }

  /** `SkipSpaces` passes over whitespace only and stops at a non-space or the end. */
  lemma {:induction false} SkipSpacesSkipsSpace(t: string, i: nat)
    requires i <= |t|
    decreases |t| - i
    ensures var j := SkipSpaces(t, i); AllSpace(t[i..j]) && (j < |t| ==> !IsSpace(t[j]))
  {
    if i < |t| && IsSpace(t[i]) {
      SkipSpacesSkipsSpace(t, i + 1);
      assert t[i..SkipSpaces(t, i)] == [t[i]] + t[i + 1..SkipSpaces(t, i)];
    }
  }

  /** `t.split(/\s+/)`: the pieces between runs of whitespace; the empty string gives one empty piece. */
  function SplitOnWhitespace(t: string): (pieces: seq<string>)
    decreases |t|
    ensures |pieces| >= 1
  {
    var i := NextSpace(t, 0);
    if i == |t| then [t]
    else [t[..i]] + SplitOnWhitespace(t[SkipSpaces(t, i)..])
  }

  /** No piece of a split holds whitespace. */
  lemma {:induction false} SplitPiecesHaveNoSpace(t: string)
    decreases |t|
    ensures forall k :: 0 <= k < |SplitOnWhitespace(t)| ==> NoSpace(SplitOnWhitespace(t)[k])
  {
    var i := NextSpace(t, 0);
    NextSpaceSkipsAWord(t, 0);
    assert t[0..i] == t[..i];
    if i < |t| {
      SplitPiecesHaveNoSpace(t[SkipSpaces(t, i)..]);
    }
  }

  /** `text.trim().split(/\s+/).length`. */
  function WordCount(text: string): nat
  {
    |SplitOnWhitespace(Trim(text))|
  }

  /** Reference count: the positions where a word starts, a non-space with no non-space before it. */
  function Words(s: string): nat
  {
    if s == [] then 0
    else Words(s[..|s| - 1]) + (if !IsSpace(s[|s| - 1]) && (|s| == 1 || IsSpace(s[|s| - 2])) then 1 else 0)
  }

  /** Two texts joined lose a word exactly when a word straddles the join. */
  lemma {:induction false} WordsAppend(a: string, b: string)
    ensures Words(a + b) ==
      Words(a) + Words(b) - (if a != [] && b != [] && !IsSpace(a[|a| - 1]) && !IsSpace(b[0]) then 1 else 0)
  {
    if b == [] {
      assert a + b == a;
    } else if |b| == 1 {
      assert (a + b)[..|a + b| - 1] == a;
      assert b[..0] == [];
    } else {
      var b' := b[..|b| - 1];
      assert (a + b)[..|a + b| - 1] == a + b';
      WordsAppend(a, b');
    }
  }

  lemma {:induction false} WordsOfSpaces(s: string)
    requires AllSpace(s)
    ensures Words(s) == 0
  {
    if s != [] {
      WordsOfSpaces(s[..|s| - 1]);
    }
  }

  lemma {:induction false} WordsOfOneWord(s: string)
    requires s != [] && NoSpace(s)
    ensures Words(s) == 1
  {
    if |s| > 1 {
      WordsOfOneWord(s[..|s| - 1]);
    }
  }

  /** Surrounding whitespace adds no word. */
  lemma WordsOfPadded(lead: string, t: string, trail: string)
    requires AllSpace(lead) && AllSpace(trail)
    ensures Words(lead + t + trail) == Words(t)
  {
    WordsOfSpaces(lead);
    WordsOfSpaces(trail);
    WordsAppend(lead, t);
    WordsAppend(lead + t, trail);
    if lead + t != [] && trail != [] {
      if t == [] {
        assert (lead + t)[|lead + t| - 1] == lead[|lead| - 1];
      } else {
        assert (lead + t)[|lead + t| - 1] == t[|t| - 1];
      }
    }
  }

  /** A word, then a run of whitespace, then the rest: one word more than the rest. */
  lemma FirstWordThenRest(t: string, i: nat, j: nat)
    requires 0 < i < j < |t|
    requires NoSpace(t[..i]) && AllSpace(t[i..j])
    ensures Words(t) == 1 + Words(t[j..])
  {
    var word, gap, rest := t[..i], t[i..j], t[j..];
    assert t == word + gap + rest;
    WordsOfOneWord(word);
    WordsOfSpaces(gap);
    WordsAppend(word, gap);
    assert IsSpace(gap[0]);
    WordsAppend(word + gap, rest);
    assert (word + gap)[|word + gap| - 1] == gap[|gap| - 1];
  }

  /** On text with no whitespace at either end, splitting gives one piece per word. */
  lemma {:induction false} SplitCountsWords(t: string)
    requires t != [] && Trimmed(t)
    decreases |t|
    ensures |SplitOnWhitespace(t)| == Words(t)
  {
    var i := NextSpace(t, 0);
    NextSpaceSkipsAWord(t, 0);
    assert t[0..i] == t[..i];
    if i == |t| {
      WordsOfOneWord(t);
    } else {
      var j := SkipSpaces(t, i);
      SkipSpacesSkipsSpace(t, i);
      assert j < |t|;
      FirstWordThenRest(t, i, j);
      SplitCountsWords(t[j..]);
    }
  }

  /**
   * The count the page compares with 30 is the number of words, except that
   * text with no word at all still counts as one.
   */
  lemma WordCountIsWords(text: string)
    ensures WordCount(text) == if Words(text) == 0 then 1 else Words(text)
  {
    var t := Trim(text);
    var lead, trail := TrimRemovesOnlySpace(text);
    WordsOfPadded(lead, t, trail);
    if t != [] {
      SplitCountsWords(t);
    }
  }

  const WordLimit: nat := 30
  const TooManyWords := "Description cannot exceed 30 words."

  predicate DescriptionTooLong(text: string)
  {
    WordCount(text) > WordLimit
  }

  /** The limit is on words proper: blank text never exceeds it. */
  lemma TooLongMeansOver30Words(text: string)
    ensures DescriptionTooLong(text) <==> Words(text) > WordLimit
  {
    WordCountIsWords(text);
  }

  /** The `profile` state the page renders. */
  datatype Profile = Profile(
    firstName: string,
    lastName: string,
    profilePictureUrl: string,
    bio: Option<string>,
    videos: seq<VideoView>)

  const InitialProfile := Profile("", "", "", Some(""), [])

  const DefaultPicture := "/default-profile.png"

  /** The profile built from the `/me` reply; a missing or empty picture falls back to the default image. */
  function FromUser(user: UserView): (p: Profile)
    ensures p.profilePictureUrl == DefaultPicture <==>
      user.profilePicture.None? || user.profilePicture.value in {"", DefaultPicture}
    ensures user.profilePicture.Some? && user.profilePicture.value != "" ==> p.profilePictureUrl == user.profilePicture.value
    ensures p.firstName == user.firstname && p.lastName == user.lastname
    ensures p.videos == user.videos && p.bio == user.bio
  {
    var picture := if user.profilePicture.Some? && user.profilePicture.value != "" then user.profilePicture.value else DefaultPicture;
    Profile(user.firstname, user.lastname, picture, user.bio, user.videos)
  }

  /** `prev => ({ ...prev, bio })`. */
  function WithBio(p: Profile, bio: string): Profile
  {
    p.(bio := Some(bio))
  }

  /** `prev => ({ ...prev, videos: [...prev.videos, video] })`. */
  function WithVideo(p: Profile, video: VideoView): Profile
  {
    p.(videos := p.videos + [video])
  }

  /** `prev => ({ ...prev, profilePictureUrl: url })`. */
  function WithPicture(p: Profile, url: string): Profile
  {
    p.(profilePictureUrl := url)
  }

  /**
   * Each updater changes its own field only, so updaters of different fields
   * commute: the order React applies queued updates in does not matter.
   */
  lemma UpdatersTouchOneFieldAndCommute(p: Profile, bio: string, video: VideoView, url: string)
    ensures WithBio(p, bio).(bio := p.bio) == p
    ensures WithPicture(p, url).(profilePictureUrl := p.profilePictureUrl) == p
    ensures WithVideo(p, video).(videos := p.videos) == p
    ensures WithBio(WithVideo(p, video), bio) == WithVideo(WithBio(p, bio), video)
    ensures WithBio(WithPicture(p, url), bio) == WithPicture(WithBio(p, bio), url)
    ensures WithPicture(WithVideo(p, video), url) == WithVideo(WithPicture(p, url), video)
  {
  }

  /** Successive uploads append in order and never reorder or drop the earlier videos. */
  lemma {:induction false} UploadsAppendInOrder(p: Profile, uploaded: seq<VideoView>)
    ensures AppendAll(p, uploaded).videos == p.videos + uploaded
    ensures AppendAll(p, uploaded).(videos := p.videos) == p
    decreases |uploaded|
  {
    if uploaded != [] {
      UploadsAppendInOrder(WithVideo(p, uploaded[0]), uploaded[1..]);
      assert p.videos + [uploaded[0]] + uploaded[1..] == p.videos + uploaded;
    }
  }

  /** The profile after a run of successful uploads. */
  function AppendAll(p: Profile, uploaded: seq<VideoView>): Profile
    decreases |uploaded|
  {
    if uploaded == [] then p else AppendAll(WithVideo(p, uploaded[0]), uploaded[1..])
  }

  /** What axios resolves with: a 2xx reply; any other status, or no reply at all, rejects. */
  predicate Resolved(reply: Option<Response>)
  {
    reply.Some? && 200 <= reply.value.status < 300
  }

  /** The handlers' test: the reply resolved and its body says `success: true`. */
  predicate Accepted(reply: Option<Response>)
  {
    Resolved(reply) && reply.value.body.Success()
  }

  /** `error.response.data.error`: the body's `error`, or nothing (shown as no message) when it has none. */
  function ErrorField(body: Json): string
  {
    if body.ErrorBody? then body.error else ""
  }

  const BioFailed := "Error updating bio. Please try again."
  const VideoFailed := "Error uploading video. Please try again."
  const PhotoFailed := "Error uploading profile photo. Please try again."

  /** What the video form posts. */
  datatype VideoRequest = VideoRequest(title: string, description: string)

  /** What `handleVideoUpload` posts for a description: nothing when it is over the limit, else the trimmed text. */
  function VideoRequestFor(title: string, description: string): (r: Option<VideoRequest>)
    ensures r.None? <==> Words(description) > WordLimit
    ensures r.Some? ==> r.value == VideoRequest(title, Trim(description))
  {
    TooLongMeansOver30Words(description);
    if DescriptionTooLong(description) then None else Some(VideoRequest(title, Trim(description)))
  }

  /** The page's state: the shared `profile` and `error`, and each hook's own fields. */
  class Page {
    var profile: Profile
    var error: string
    var bioInput: string
    var bioLoading: bool
    var bioModalOpen: bool
    var videoDescription: string
    var descriptionError: string
    var videoUploading: bool
    var videoModalOpen: bool
    var photoUploading: bool
    var photoModalOpen: bool

    constructor ()
      ensures profile == InitialProfile && error == "" && bioInput == "" && videoDescription == ""
      ensures descriptionError == "" && !bioLoading && !videoUploading && !photoUploading
      ensures !bioModalOpen && !videoModalOpen && !photoModalOpen
    {
      profile := InitialProfile;
      error := "";
      bioInput := "";
      bioLoading := false;
      bioModalOpen := false;
      videoDescription := "";
      descriptionError := "";
      videoUploading := false;
      videoModalOpen := false;
      photoUploading := false;
      photoModalOpen := false;
    }

    /** `handleDescriptionChange`: keep the raw text; flag it iff it is over the limit. */
    method DescriptionChanged(text: string)
      modifies this`videoDescription, this`descriptionError
      ensures videoDescription == text
      ensures descriptionError == (if DescriptionTooLong(text) then TooManyWords else "")
    {
      descriptionError := if DescriptionTooLong(text) then TooManyWords else "";
      videoDescription := text;
    }

    /**
     * `handleBioUpdate` with the server's `reply` (`None` when no reply came):
     * an accepted reply stores the bio that was sent and closes the dialog;
     * anything else leaves the profile as it was and shows the bio error.
     */
    method SubmitBio(reply: Option<Response>)
      modifies this`profile, this`error, this`bioLoading, this`bioModalOpen
      ensures !bioLoading
      ensures Accepted(reply) ==> profile == WithBio(old(profile), bioInput) && error == "" && !bioModalOpen
      ensures !Accepted(reply) ==> profile == old(profile) && error == BioFailed && bioModalOpen == old(bioModalOpen)
    {
      bioLoading := true;
      error := "";
      if Accepted(reply) {
        profile := WithBio(profile, bioInput);
        bioModalOpen := false;
      } else {
        error := BioFailed;
      }
      bioLoading := false;
    }

    /**
     * `handleVideoUpload`: a description over the limit is flagged and nothing
     * is sent; otherwise the trimmed description is sent, and an accepted
     * reply appends the returned video and clears the form.
     */
    method SubmitVideo(title: string, reply: Option<Response>) returns (sent: Option<VideoRequest>)
      requires Accepted(reply) ==> reply.value.body.VideoDone?
      modifies this`profile, this`error, this`videoUploading, this`videoModalOpen, this`videoDescription, this`descriptionError
      ensures !videoUploading
      ensures sent == VideoRequestFor(title, old(videoDescription))
      ensures sent.None? ==>
        && descriptionError == TooManyWords && error == ""
        && profile == old(profile) && videoDescription == old(videoDescription) && videoModalOpen == old(videoModalOpen)
      ensures sent.Some? ==>
        && descriptionError == old(descriptionError)
        && (Accepted(reply) ==>
              profile == WithVideo(old(profile), reply.value.body.video) && error == "" &&
              !videoModalOpen && videoDescription == "")
        && (!Accepted(reply) ==>
              profile == old(profile) && error == VideoFailed &&
              videoModalOpen == old(videoModalOpen) && videoDescription == old(videoDescription))
    {
      sent := VideoRequestFor(title, videoDescription);
      videoUploading := true;
      error := "";
      if sent.None? {
        descriptionError := TooManyWords;
        videoUploading := false;
        return;
      }
      ApplyVideoReply(reply);
    }

    /** Lines 136-151: the part of `handleVideoUpload` after the request is sent. */
    method ApplyVideoReply(reply: Option<Response>)
      requires Accepted(reply) ==> reply.value.body.VideoDone?
      modifies this`profile, this`error, this`videoUploading, this`videoModalOpen, this`videoDescription
      ensures !videoUploading
      ensures Accepted(reply) ==>
        && profile == WithVideo(old(profile), reply.value.body.video) && error == old(error)
        && !videoModalOpen && videoDescription == ""
      ensures !Accepted(reply) ==>
        && profile == old(profile) && error == VideoFailed
        && videoModalOpen == old(videoModalOpen) && videoDescription == old(videoDescription)
    {
      if Accepted(reply) {
        profile := WithVideo(profile, reply.value.body.video);
        videoModalOpen := false;
        videoDescription := "";
      } else {
        error := VideoFailed;
      }
      videoUploading := false;
    }

    /**
     * `handleProfilePictureUpdate`: an accepted reply shows the new picture;
     * a rejected reply shows the server's `error`, and no reply, or a 2xx
     * without `success`, shows the generic message.
     */
    method SubmitPhoto(reply: Option<Response>)
      requires Accepted(reply) ==> reply.value.body.PictureDone?
      modifies this`profile, this`error, this`photoUploading, this`photoModalOpen
      ensures !photoUploading
      ensures Accepted(reply) ==>
        profile == WithPicture(old(profile), reply.value.body.profilePictureUrl) && error == "" && !photoModalOpen
      ensures !Accepted(reply) ==> profile == old(profile) && photoModalOpen == old(photoModalOpen)
      ensures reply.Some? && !Resolved(reply) ==> error == ErrorField(reply.value.body)
      ensures (reply.None? || Resolved(reply)) && !Accepted(reply) ==> error == PhotoFailed
    {
      photoUploading := true;
      error := "";
      if Accepted(reply) {
        profile := WithPicture(profile, reply.value.body.profilePictureUrl);
        photoModalOpen := false;
      } else if reply.Some? && !Resolved(reply) {
        error := ErrorField(reply.value.body);
      } else {
        error := PhotoFailed;
      }
      photoUploading := false;
    }
  }
}
