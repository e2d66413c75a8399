/**
 The onboarding wizard: a draft farmer profile filled in over five steps
 (0 Create Account, 1 Farmer Type, 2 Farm Info, 3 Farming Method,
 4 Challenges), a validity gate per step, avatar staging, and the two steps
 that talk to the backend (account creation on leaving step 0, profile save on
 finishing step 4).
 */
module SignupWizard {
  import opened Text
  import opened Backend

  const LastStep: nat := 4
  /** Largest accepted avatar, in bytes (2 MiB). */
  const MaxAvatarBytes: nat := 2 * 1024 * 1024
  const AvatarBucket: string := "profile-pictures"
  /** Lifetime of the avatar's signed URL: one year of seconds. */
  const SignedUrlTtlSeconds: nat := 60 * 60 * 24 * 365

  // ---------------------------------------------------------------------
  // Draft

  /** Everything the form holds besides the avatar. */
  datatype Draft = Draft(
    fullName: string, phone: string, email: string,
    password: string, confirmPassword: string,
    district: string, upazila: string,
    farmerTypes: seq<string>,
    landSize: string, landOwnership: string, irrigationSource: string,
    farmingMethod: string,
    challenges: seq<string>)

  const EmptyDraft := Draft("", "", "", "", "", "", "", [], "", "", "", "", [])

  /** The draft's free-text and single-choice fields that an input or an
      option button sets directly. */
  datatype Field =
    | FullName | Phone | Email | Password | ConfirmPassword
    | LandSize | LandOwnership | IrrigationSource | FarmingMethod

  function SetField(d: Draft, f: Field, v: string): (r: Draft)
  {
    match f
    case FullName => d.(fullName := v)
    case Phone => d.(phone := v)
    case Email => d.(email := v)
    case Password => d.(password := v)
    case ConfirmPassword => d.(confirmPassword := v)
    case LandSize => d.(landSize := v)
    case LandOwnership => d.(landOwnership := v)
    case IrrigationSource => d.(irrigationSource := v)
    case FarmingMethod => d.(farmingMethod := v)
  }

  /** Choosing a district: the upazila belongs to the old district, so it is
      cleared, and the account step is blocked until a new one is chosen. */
  function SelectDistrict(d: Draft, district: string): (r: Draft)
    ensures r.district == district && r.upazila == ""
    ensures r.(district := d.district, upazila := d.upazila) == d
    ensures !CanProceed(0, r)
  {
    d.(district := district, upazila := "")
  }

  /** The prefill effect: a signed-in user's metadata name and e-mail replace
      the typed ones (absent values become ""). */
  function Prefill(d: Draft, user: Option<SessionUser>): (r: Draft)
    ensures user.None? ==> r == d
    ensures user.Some? ==> r.fullName == OrEmpty(user.value.fullNameHint)
                           && r.email == OrEmpty(user.value.email)
                           && r.(fullName := d.fullName, email := d.email) == d
  {
    match user
    case None => d
    case Some(u) => d.(fullName := OrEmpty(u.fullNameHint), email := OrEmpty(u.email))
  }

  // ---------------------------------------------------------------------
  // E-mail syntax: ^[^\s@]+@[^\s@]+\.[^\s@]+$

  /** `[^\s@]*`: no white space and no '@'. */
  predicate Plain(s: string)
  {
    forall k :: 0 <= k < |s| ==> !IsSpace(s[k]) && s[k] != '@'
  }

  /** `[^\s@]+` */
  predicate Run(s: string)
  {
    s != [] && Plain(s)
  }

  /** The language of the pattern, read as it is written: a run, '@', a run,
      '.', a run. */
  ghost predicate EmailPattern(e: string)
  {
    exists local, host, tld :: e == local + "@" + host + "." + tld && Run(local) && Run(host) && Run(tld)
  }

  /** Position of the first '@' in `s`, or |s| when there is none. */
  function FirstAt(s: string): (k: nat)
    ensures k <= |s|
    ensures forall j :: 0 <= j < k ==> s[j] != '@'
    ensures k < |s| ==> s[k] == '@'
  {
    if s == [] || s[0] == '@' then 0 else 1 + FirstAt(s[1..])
  }

  /** `[^\s@]+\.[^\s@]+`: no white space or '@', and a '.' that is neither
      first nor last. */
  predicate HostPart(d: string)
  {
    |d| >= 3 && Plain(d) && '.' in d[1..|d| - 1]
  }

  /** The check the form runs: split at the first '@'. */
  predicate IsValidEmail(e: string)
  {
    var k := FirstAt(e);
    0 < k < |e| && Plain(e[..k]) && HostPart(e[k + 1..])
  }

  lemma PlainSlice(s: string, i: nat, j: nat)
    requires Plain(s) && i <= j <= |s|
    ensures Plain(s[i..j])
  {
    assert forall k :: 0 <= k < j - i ==> s[i..j][k] == s[i + k];
  }

  /** A host part is a run, a '.', and a run. */
  lemma HostPartSplits(d: string) returns (host: string, tld: string)
    requires HostPart(d)
    ensures d == host + "." + tld && Run(host) && Run(tld)
  {
    assert '.' in d[1..|d| - 1];
    var q :| 0 <= q < |d| - 2 && d[1..|d| - 1][q] == '.';
    var p := q + 1;
    assert d[p] == '.';
    host, tld := d[..p], d[p + 1..];
    PlainSlice(d, 0, p);
    assert d[0..p] == host;
    PlainSlice(d, p + 1, |d|);
    assert d[p + 1..|d|] == tld;
    assert d == host + [d[p]] + tld;
  }

  lemma ValidEmailMatches(e: string)
    requires IsValidEmail(e)
    ensures EmailPattern(e)
  {
    var k := FirstAt(e);
    var local, d := e[..k], e[k + 1..];
    var host, tld := HostPartSplits(d);
    assert e == local + [e[k]] + d;
    assert e == local + "@" + host + "." + tld;
    assert Run(local);
  }

  /** The first '@' of `local + "@" + rest` is the one after `local` when
      `local` has none. */
  lemma {:induction false} FirstAtAfterPlain(local: string, rest: string)
    requires Plain(local)
    ensures FirstAt(local + "@" + rest) == |local|
  {
    if local != [] {
      assert (local + "@" + rest)[1..] == local[1..] + "@" + rest;
      assert Plain(local[1..]) by {
        forall k | 0 <= k < |local| - 1 ensures !IsSpace(local[1..][k]) && local[1..][k] != '@' {
          assert local[1..][k] == local[k + 1];
        }
      }
      FirstAtAfterPlain(local[1..], rest);
    }
  }

  /** Two runs joined by a '.' have no white space and no '@'. */
  lemma PlainJoin(host: string, tld: string)
    requires Plain(host) && Plain(tld)
    ensures Plain(host + "." + tld)
  {
    var d := host + "." + tld;
    forall j | 0 <= j < |d| ensures !IsSpace(d[j]) && d[j] != '@' {
      if j < |host| { assert d[j] == host[j]; }
      else if j > |host| { assert d[j] == tld[j - |host| - 1]; }
    }
  }

  lemma PatternIsValid(e: string, local: string, host: string, tld: string)
    requires e == local + "@" + host + "." + tld && Run(local) && Run(host) && Run(tld)
    ensures IsValidEmail(e)
  {
    var d := host + "." + tld;
    assert e == local + "@" + d;
    var k := |local|;
    FirstAtAfterPlain(local, d);
    assert e[..k] == local;
    assert e[k + 1..] == d;
    PlainJoin(host, tld);
    assert d[1..|d| - 1][|host| - 1] == '.';
  }

  lemma {:induction false} IsValidEmailMatchesPattern(e: string)
    ensures IsValidEmail(e) <==> EmailPattern(e)
  {
    if IsValidEmail(e) {
      ValidEmailMatches(e);
    }
    if EmailPattern(e) {
      var local, host, tld :| e == local + "@" + host + "." + tld && Run(local) && Run(host) && Run(tld);
      PatternIsValid(e, local, host, tld);
    }
  }

  /** The pattern rejects "bad-email", which has no '@'. */
  lemma BadEmailRejected()
    ensures !EmailPattern("bad-email")
  {
    var bad := "bad-email";
    assert FirstAt(bad) == |bad| by {
      assert forall j :: 0 <= j < |bad| ==> bad[j] != '@';
    }
    IsValidEmailMatchesPattern(bad);
  }

  /** The pattern accepts "a@b.co". */
  lemma GoodEmailAccepted()
    ensures EmailPattern("a@b.co")
  {
    assert "a@b.co" == "a" + "@" + "b" + "." + "co";
    assert Run("a") && Run("b") && Run("co");
  }

  // ---------------------------------------------------------------------
  // Step gates

  /** The Next / Create account / Finish gate of a step. */
  predicate CanProceed(step: int, d: Draft)
  {
    match step
    case 0 =>
      Trim(d.fullName) != [] && Trim(d.email) != [] && IsValidEmail(d.email)
      && Utf16Length(d.password) >= 6 && d.password == d.confirmPassword
      && Utf16Length(Trim(d.phone)) >= 11 && d.district != [] && d.upazila != []
    case 1 => |d.farmerTypes| > 0
    case 2 => d.landSize != [] && d.landOwnership != [] && d.irrigationSource != []
    case 3 => d.farmingMethod != []
    case 4 => |d.challenges| > 0
    case _ => false
  }

  /** What each gate means. Step 0's e-mail test reduces to the pattern (a
      matching address has no white space, so it trims to itself). */
  lemma CanProceedMeaning(step: int, d: Draft)
    ensures step == 0 ==> (CanProceed(step, d) <==>
      HasVisible(d.fullName) && EmailPattern(d.email)
      && Utf16Length(d.password) >= 6 && d.password == d.confirmPassword
      && Utf16Length(Trim(d.phone)) >= 11 && d.district != "" && d.upazila != "")
    ensures step == 1 ==> (CanProceed(step, d) <==> d.farmerTypes != [])
    ensures step == 2 ==> (CanProceed(step, d) <==> d.landSize != "" && d.landOwnership != "" && d.irrigationSource != "")
    ensures step == 3 ==> (CanProceed(step, d) <==> d.farmingMethod != "")
    ensures step == 4 ==> (CanProceed(step, d) <==> d.challenges != [])
    ensures (step < 0 || step > LastStep) ==> !CanProceed(step, d)
  {
    IsValidEmailMatchesPattern(d.email);
    TrimEmptyIffBlank(d.fullName);
    TrimEmptyIffBlank(d.email);
    if IsValidEmail(d.email) {
      var k := FirstAt(d.email);
      assert !IsSpace(d.email[0]) by {
        assert d.email[..k][0] == d.email[0];
      }
    }
  }

  /** A password and confirmation that differ block step 0, whatever else is
      filled in ("abcdef" against "abcxyz" being one case). */
  lemma MismatchBlocksAccount(d: Draft)
    requires d.password != d.confirmPassword
    ensures !CanProceed(0, d)
  {
  }

  // ---------------------------------------------------------------------
  // Multi-select toggle

  /** `arr.filter(i => i !== x)` */
  function RemoveAll(s: seq<string>, x: string): seq<string>
  {
    if s == [] then []
    else (if s[0] == x then [] else [s[0]]) + RemoveAll(s[1..], x)
  }

  /** Filtering removes every occurrence of `x` and keeps every other value
      with its multiplicity. */
  lemma {:induction false} RemoveAllCounts(s: seq<string>, x: string)
    ensures multiset(RemoveAll(s, x)) == multiset(s)[x := 0]
  {
    if s != [] {
      RemoveAllCounts(s[1..], x);
      assert s == [s[0]] + s[1..];
    }
  }

  /** `arr.includes(x) ? arr.filter(i => i !== x) : [...arr, x]` */
  function Toggle(s: seq<string>, x: string): (r: seq<string>)
    ensures x in r <==> x !in s
    ensures forall y :: y != x ==> multiset(r)[y] == multiset(s)[y]
    ensures x !in s ==> r == s + [x]
  {
    if x in s then
      RemoveAllCounts(s, x);
      var r := RemoveAll(s, x);
      assert multiset(r)[x] == 0;
      r
    else s + [x]
  }

  predicate Distinct(s: seq<string>)
  {
    forall i, j :: 0 <= i < j < |s| ==> s[i] != s[j]
  }

  lemma {:induction false} RemoveAllAppend(a: seq<string>, b: seq<string>, x: string)
    ensures RemoveAll(a + b, x) == RemoveAll(a, x) + RemoveAll(b, x)
  {
    if a != [] {
      assert (a + b)[1..] == a[1..] + b;
      RemoveAllAppend(a[1..], b, x);
      var h := if a[0] == x then [] else [a[0]];
      assert RemoveAll(a + b, x) == h + RemoveAll(a[1..] + b, x);
    } else {
      assert a + b == b;
    }
  }

  lemma {:induction false} RemoveAllAbsent(s: seq<string>, x: string)
    requires x !in s
    ensures RemoveAll(s, x) == s
  {
    if s != [] {
      RemoveAllAbsent(s[1..], x);
      assert s == [s[0]] + s[1..];
    }
  }

  lemma {:induction false} RemoveAllKeepsDistinct(s: seq<string>, x: string)
    requires Distinct(s)
    ensures Distinct(RemoveAll(s, x))
  {
    if s != [] {
      var t := s[1..];
      assert Distinct(t) by {
        forall i, j | 0 <= i < j < |t| ensures t[i] != t[j] {
          assert t[i] == s[i + 1] && t[j] == s[j + 1];
        }
      }
      RemoveAllKeepsDistinct(t, x);
      var rt := RemoveAll(t, x);
      if s[0] != x {
        assert s[0] !in t by {
          forall j | 0 <= j < |t| ensures t[j] != s[0] { assert t[j] == s[j + 1]; }
        }
        RemoveAllCounts(t, x);
        assert multiset(t)[s[0]] == 0;
        assert multiset(rt)[s[0]] == 0;
        assert s[0] !in rt;
        var r := [s[0]] + rt;
        forall i, j | 0 <= i < j < |r| ensures r[i] != r[j] {
          if i == 0 { assert r[j] == rt[j - 1]; assert rt[j - 1] in rt; }
          else { assert r[i] == rt[i - 1] && r[j] == rt[j - 1]; }
        }
      }
    }
  }

  lemma {:induction false} DistinctCountsOnce(s: seq<string>, x: string)
    requires Distinct(s) && x in s
    ensures multiset(s)[x] == 1
  {
    var t := s[1..];
    assert s == [s[0]] + t;
    assert Distinct(t) by {
      forall i, j | 0 <= i < j < |t| ensures t[i] != t[j] {
        assert t[i] == s[i + 1] && t[j] == s[j + 1];
      }
    }
    if s[0] == x {
      assert x !in t by {
        forall j | 0 <= j < |t| ensures t[j] != x { assert t[j] == s[j + 1]; }
      }
    } else {
      DistinctCountsOnce(t, x);
    }
  }

  /** Toggling never introduces a duplicate. */
  lemma ToggleKeepsDistinct(s: seq<string>, x: string)
    requires Distinct(s)
    ensures Distinct(Toggle(s, x))
  {
    if x in s {
      RemoveAllKeepsDistinct(s, x);
    }
  }

  /** Selecting and then deselecting an absent value restores the list, order
      included. */
  lemma ToggleAbsentTwice(s: seq<string>, x: string)
    requires x !in s
    ensures Toggle(Toggle(s, x), x) == s
  {
    RemoveAllAppend(s, [x], x);
    RemoveAllAbsent(s, x);
    assert RemoveAll([x], x) == [];
  }

  /** Deselecting and then reselecting a present value keeps the same values
      (with the same multiplicities when there were no duplicates) but moves it
      to the end. */
  lemma TogglePresentTwice(s: seq<string>, x: string)
    requires x in s
    ensures Toggle(Toggle(s, x), x) == RemoveAll(s, x) + [x]
    ensures forall y :: y in Toggle(Toggle(s, x), x) <==> y in s
    ensures Distinct(s) ==> multiset(Toggle(Toggle(s, x), x)) == multiset(s)
  {
    var r := RemoveAll(s, x);
    RemoveAllCounts(s, x);
    assert x !in r by { assert multiset(r)[x] == 0; }
    forall y ensures y in r + [x] <==> y in s {
      assert y in r <==> multiset(r)[y] > 0;
      assert y in s <==> multiset(s)[y] > 0;
    }
    if Distinct(s) {
      DistinctCountsOnce(s, x);
      assert multiset(r + [x]) == multiset(s);
    }
  }

  // ---------------------------------------------------------------------
  // Avatar acceptance

  datatype FileInfo = FileInfo(name: string, mimeType: string, size: nat)

  datatype AvatarVerdict = NotAnImage | TooLarge | Accepted

  /** The MIME type is checked first, then the size; exactly 2 MiB passes. */
  function CheckAvatar(f: FileInfo): (v: AvatarVerdict)
    ensures v == NotAnImage <==> !("image/" <= f.mimeType)
    ensures v == TooLarge <==> "image/" <= f.mimeType && f.size > MaxAvatarBytes
    ensures v == Accepted <==> "image/" <= f.mimeType && f.size <= MaxAvatarBytes
  {
    if !("image/" <= f.mimeType) then NotAnImage
    else if f.size > MaxAvatarBytes then TooLarge
    else Accepted
  }

  /** `<userId>/avatar.<text after the last '.' of the file name>` */
  function AvatarPath(userId: string, fileName: string): string
  {
    userId + "/avatar." + AfterLastDot(fileName)
  }

  /** The avatar path is the user's folder, `avatar.`, and then the file
      name's extension: a suffix of the name with no '.', preceded by a '.'
      unless it is the whole name. */
  lemma AvatarPathShape(userId: string, fileName: string)
    ensures var path := AvatarPath(userId, fileName);
      |path| >= |userId| + 8 && path[..|userId| + 8] == userId + "/avatar."
    ensures var ext := AvatarPath(userId, fileName)[|userId| + 8..];
      '.' !in ext && |ext| <= |fileName| && ext == fileName[|fileName| - |ext|..]
      && (|ext| < |fileName| ==> fileName[|fileName| - |ext| - 1] == '.')
  {
    AfterLastDotSuffix(fileName);
    var path := AvatarPath(userId, fileName);
    assert path[|userId| + 8..] == AfterLastDot(fileName);
  }

  // ---------------------------------------------------------------------
  // Backend effects

  datatype Detail = Message(text: string) | ImageOnly | ImageSize | AccountCreateFailed | SaveFailed

  datatype Notice = AccountCreated | ErrorNotice(detail: Detail)

  /** The row written to `profiles`; `user_id` travels beside it. */
  datatype Payload = Payload(
    fullName: string, phone: string, email: string, district: string, upazila: string,
    farmerType: seq<string>, landSizeCategory: string, landOwnership: string,
    irrigationSource: string, farmingMethod: string, biggestChallenges: seq<string>,
    onboardingCompleted: bool, avatarUrl: Option<string>)

  /** What the wizard asks of the outside world, in order. */
  datatype Effect =
    | SignUp(email: string, password: string, fullName: string)
    | GetSession
    | Upload(bucket: string, path: string, file: FileInfo, overwrite: bool)
    | CreateSignedUrl(bucket: string, path: string, ttlSeconds: nat)
    | UpdateProfile(userId: string, payload: Payload)
    | InsertProfile(userId: string, payload: Payload)
    | OnboardingComplete
    | Toast(notice: Notice)

  const SaveFailedToast := Toast(ErrorNotice(SaveFailed))

  /** The notice that follows the sign-up call. */
  function SignUpNotice(reply: Reply<Status>): (n: Notice)
    ensures n == AccountCreated <==> reply == Returns(Ok)
    ensures reply.Returns? && reply.value.Failed? ==> n == ErrorNotice(Message(reply.value.message))
    ensures reply.Throws? && reply.message != "" ==> n == ErrorNotice(Message(reply.message))
    ensures n == ErrorNotice(AccountCreateFailed) <==> reply.Throws? && reply.message == ""
  {
    match reply
    case Returns(Ok) => AccountCreated
    case Returns(Failed(m)) => ErrorNotice(Message(m))
    case Throws(m) => ErrorNotice(if m == "" then AccountCreateFailed else Message(m))
  }

  /** The profile fields, always marked completed; `avatar_url` only when a
      non-empty signed URL was obtained. */
  function BuildPayload(d: Draft, avatarUrl: Option<string>): (p: Payload)
    ensures p.onboardingCompleted
    ensures p.avatarUrl.Some? <==> avatarUrl.Some? && avatarUrl.value != ""
    ensures p.avatarUrl.Some? ==> p.avatarUrl == avatarUrl
    ensures p.fullName == d.fullName && p.phone == d.phone && p.email == d.email
    ensures p.district == d.district && p.upazila == d.upazila
    ensures p.farmerType == d.farmerTypes && p.biggestChallenges == d.challenges
    ensures p.landSizeCategory == d.landSize && p.landOwnership == d.landOwnership
    ensures p.irrigationSource == d.irrigationSource && p.farmingMethod == d.farmingMethod
  {
    Payload(d.fullName, d.phone, d.email, d.district, d.upazila, d.farmerTypes,
            d.landSize, d.landOwnership, d.irrigationSource, d.farmingMethod, d.challenges,
            true, if avatarUrl.Some? && avatarUrl.value != "" then avatarUrl else None)
  }

  /** The outcomes of the calls made while finishing. */
  datatype FinishReplies = FinishReplies(
    session: Reply<Option<SessionUser>>,
    upload: Reply<Status>,
    signedUrl: Reply<Option<string>>,
    update: Reply<Status>,
    insert: Reply<Status>)

  /** The avatar part of finishing: the calls made, the URL obtained, and
      whether an exception escaped. */
  datatype AvatarStage = AvatarStage(effects: seq<Effect>, url: Option<string>, threw: bool)

  /** An exception escapes the avatar part. */
  predicate AvatarThrows(file: Option<FileInfo>, r: FinishReplies)
  {
    file.Some? && (r.upload.Throws? || (r.upload == Returns(Ok) && r.signedUrl.Throws?))
  }

  /** An exception escapes the profile write. */
  predicate WriteThrows(r: FinishReplies)
  {
    r.update.Throws? || (r.update.Returns? && r.update.value.Failed? && r.insert.Throws?)
  }

  /** Upload, then sign; an upload error is swallowed and leaves the URL out. */
  function UploadAvatar(userId: string, file: Option<FileInfo>, r: FinishReplies): (st: AvatarStage)
    ensures file.None? ==> st == AvatarStage([], None, false)
    ensures |st.effects| <= 2
    ensures |st.effects| >= 1 ==> st.effects[0].Upload?
    ensures |st.effects| == 2 ==> st.effects[1].CreateSignedUrl?
    ensures st.url.Some? <==> file.Some? && r.upload == Returns(Ok)
                              && r.signedUrl.Returns? && r.signedUrl.value.Some? && r.signedUrl.value.value != ""
    ensures st.url.Some? ==> st.url == r.signedUrl.value
    ensures st.threw <==> AvatarThrows(file, r)
  {
    match file
    case None => AvatarStage([], None, false)
    case Some(f) =>
      var path := AvatarPath(userId, f.name);
      var upload := [Upload(AvatarBucket, path, f, true)];
      match r.upload
      case Throws(_) => AvatarStage(upload, None, true)
      case Returns(Failed(_)) => AvatarStage(upload, None, false)
      case Returns(Ok) =>
        var signed := upload + [CreateSignedUrl(AvatarBucket, path, SignedUrlTtlSeconds)];
        match r.signedUrl
        case Throws(_) => AvatarStage(signed, None, true)
        case Returns(u) => AvatarStage(signed, if u.Some? && u.value != "" then u else None, false)
  }

  /** Update first; insert only when the update returned an error. */
  function WriteProfile(userId: string, p: Payload, r: FinishReplies): (es: seq<Effect>)
    ensures 2 <= |es| <= 3 && es[0] == UpdateProfile(userId, p)
    ensures |es| == 3 <==> r.update.Returns? && r.update.value.Failed?
    ensures |es| == 3 ==> es[1] == InsertProfile(userId, p)
    ensures es[|es| - 1] == if WriteThrows(r) then SaveFailedToast else OnboardingComplete
  {
    [UpdateProfile(userId, p)] +
      match r.update
      case Throws(_) => [SaveFailedToast]
      case Returns(Ok) => [OnboardingComplete]
      case Returns(Failed(_)) =>
        [InsertProfile(userId, p)] + (if r.insert.Throws? then [SaveFailedToast] else [OnboardingComplete])
  }

  /** Saving for a signed-in user: the avatar part, then the profile write
      unless an exception already escaped. */
  function SaveProfile(userId: string, d: Draft, file: Option<FileInfo>, r: FinishReplies): seq<Effect>
  {
    var st := UploadAvatar(userId, file, r);
    st.effects + if st.threw then [SaveFailedToast] else WriteProfile(userId, BuildPayload(d, st.url), r)
  }

  /** What finishing does once the session lookup has answered. */
  function AfterSession(d: Draft, file: Option<FileInfo>, r: FinishReplies): seq<Effect>
  {
    match r.session
    case Throws(_) => [SaveFailedToast]
    case Returns(None) => [OnboardingComplete]
    case Returns(Some(u)) => SaveProfile(u.id, d, file, r)
  }

  /** The calls finishing makes, in order, ending in completion or in the
      save-failed notice. */
  function FinishEffects(d: Draft, file: Option<FileInfo>, r: FinishReplies): seq<Effect>
  {
    [GetSession] + AfterSession(d, file, r)
  }

  /** An exception escaped one of the awaited calls on the path taken. */
  predicate FinishThrows(file: Option<FileInfo>, r: FinishReplies)
  {
    match r.session
    case Throws(_) => true
    case Returns(None) => false
    case Returns(Some(_)) => AvatarThrows(file, r) || WriteThrows(r)
  }

  /** Finishing records a call to the backend, as opposed to a notice, the
      session lookup or completion. */
  predicate IsCall(e: Effect)
  {
    e.Upload? || e.CreateSignedUrl? || e.UpdateProfile? || e.InsertProfile?
  }

  /** Everything but the last effect of `es` is a backend call. */
  predicate CallsBeforeLast(es: seq<Effect>)
  {
    forall k :: 0 <= k < |es| - 1 ==> IsCall(es[k])
  }

  /** No profile write among `es`. */
  predicate NoWrites(es: seq<Effect>)
  {
    forall k :: 0 <= k < |es| ==> !es[k].UpdateProfile? && !es[k].InsertProfile?
  }

  /** Every profile write among `es` goes to `userId` and carries `p`. */
  predicate WritesAs(es: seq<Effect>, userId: string, p: Payload)
  {
    forall k :: 0 <= k < |es| && (es[k].UpdateProfile? || es[k].InsertProfile?) ==>
      es[k].userId == userId && es[k].payload == p
  }

  /** Some insert among `es`. */
  predicate HasInsert(es: seq<Effect>)
  {
    exists k :: 0 <= k < |es| && es[k].InsertProfile?
  }

  /** Every insert among `es` comes right after an update with the same payload. */
  predicate InsertFollowsUpdate(es: seq<Effect>)
  {
    forall k :: 0 <= k < |es| && es[k].InsertProfile? ==>
      k > 0 && es[k - 1].UpdateProfile? && es[k - 1].payload == es[k].payload
  }

  // Facts about concatenations, used to move the stage facts below up to
  // the whole of finishing.

  lemma CallsAfter(a: seq<Effect>, b: seq<Effect>)
    requires forall k :: 0 <= k < |a| ==> IsCall(a[k])
    requires CallsBeforeLast(b)
    ensures CallsBeforeLast(a + b)
  {
    var es := a + b;
    forall k | 0 <= k < |es| - 1 ensures IsCall(es[k]) {
      if k < |a| { assert es[k] == a[k]; } else { assert es[k] == b[k - |a|]; }
    }
  }

  lemma WritesAfter(a: seq<Effect>, b: seq<Effect>, userId: string, p: Payload)
    requires NoWrites(a) && WritesAs(b, userId, p)
    ensures WritesAs(a + b, userId, p)
  {
    var es := a + b;
    forall k | 0 <= k < |es| && (es[k].UpdateProfile? || es[k].InsertProfile?)
      ensures es[k].userId == userId && es[k].payload == p
    {
      if k >= |a| { assert es[k] == b[k - |a|]; }
    }
  }

  lemma NoWritesAfter(a: seq<Effect>, b: seq<Effect>)
    requires NoWrites(a) && NoWrites(b)
    ensures NoWrites(a + b)
  {
    var es := a + b;
    forall k | 0 <= k < |es| ensures !es[k].UpdateProfile? && !es[k].InsertProfile? {
      if k < |a| { assert es[k] == a[k]; } else { assert es[k] == b[k - |a|]; }
    }
  }

  lemma InsertsAfter(a: seq<Effect>, b: seq<Effect>)
    requires NoWrites(a) && InsertFollowsUpdate(b) && (|b| > 0 ==> !b[0].InsertProfile?)
    ensures InsertFollowsUpdate(a + b)
    ensures HasInsert(a + b) <==> HasInsert(b)
  {
    var es := a + b;
    forall k | 0 <= k < |es| && es[k].InsertProfile?
      ensures k > 0 && es[k - 1].UpdateProfile? && es[k - 1].payload == es[k].payload
    {
      if k >= |a| {
        assert es[k] == b[k - |a|];
        assert k - |a| > 0;
        assert es[k - 1] == b[k - 1 - |a|];
      }
    }
    if HasInsert(b) {
      var k :| 0 <= k < |b| && b[k].InsertProfile?;
      assert es[|a| + k] == b[k];
    }
    if HasInsert(es) {
      var k :| 0 <= k < |es| && es[k].InsertProfile?;
      if k >= |a| { assert es[k] == b[k - |a|]; }
    }
  }

  // Stage facts.

  /** The avatar part makes only upload and signing calls. */
  lemma AvatarCalls(userId: string, file: Option<FileInfo>, r: FinishReplies)
    ensures var es := UploadAvatar(userId, file, r).effects;
      NoWrites(es) && forall k :: 0 <= k < |es| ==> IsCall(es[k])
  {
    var es := UploadAvatar(userId, file, r).effects;
    forall k | 0 <= k < |es| ensures es[k].Upload? || es[k].CreateSignedUrl? {
      assert k == 0 || k == 1;
    }
  }

  /** The write: the update and the optional insert are calls, both to the
      same user with the same payload, the insert right after the update,
      and an insert is made iff the update returned an error. */
  lemma WriteProfileFacts(userId: string, p: Payload, r: FinishReplies)
    ensures var es := WriteProfile(userId, p, r);
      CallsBeforeLast(es) && WritesAs(es, userId, p) && InsertFollowsUpdate(es)
      && !es[0].InsertProfile? && (HasInsert(es) <==> r.update.Returns? && r.update.value.Failed?)
  {
    var es := WriteProfile(userId, p, r);
    if |es| == 3 {
      assert es[1].InsertProfile?;
    }
  }

  /** A save whose avatar part did not throw issues the update right after
      the avatar calls, with the payload built from the draft and the signed
      URL. */
  lemma SaveIssuesUpdate(userId: string, d: Draft, file: Option<FileInfo>, r: FinishReplies)
    ensures var st := UploadAvatar(userId, file, r); var es := SaveProfile(userId, d, file, r);
      !AvatarThrows(file, r) ==>
        |st.effects| < |es| && es[|st.effects|] == UpdateProfile(userId, BuildPayload(d, st.url))
  {
    var st := UploadAvatar(userId, file, r);
    if !st.threw {
      var w := WriteProfile(userId, BuildPayload(d, st.url), r);
      assert SaveProfile(userId, d, file, r) == st.effects + w;
      assert (st.effects + w)[|st.effects|] == w[0];
    }
  }

  /** The whole save for a signed-in user: its last effect, its calls, its
      writes, its update and its insert. */
  lemma SaveFacts(userId: string, d: Draft, file: Option<FileInfo>, r: FinishReplies)
    ensures var es := SaveProfile(userId, d, file, r);
      |es| >= 1 && es[|es| - 1] == (if AvatarThrows(file, r) || WriteThrows(r) then SaveFailedToast else OnboardingComplete)
      && CallsBeforeLast(es)
      && WritesAs(es, userId, BuildPayload(d, UploadAvatar(userId, file, r).url))
      && InsertFollowsUpdate(es)
      && (HasInsert(es) <==> !AvatarThrows(file, r) && r.update.Returns? && r.update.value.Failed?)
      && (!AvatarThrows(file, r) ==>
            es[|UploadAvatar(userId, file, r).effects|] == UpdateProfile(userId, BuildPayload(d, UploadAvatar(userId, file, r).url)))
  {
    SaveIssuesUpdate(userId, d, file, r);
    var st := UploadAvatar(userId, file, r);
    var p := BuildPayload(d, st.url);
    var tail := if st.threw then [SaveFailedToast] else WriteProfile(userId, p, r);
    assert SaveProfile(userId, d, file, r) == st.effects + tail;
    AvatarCalls(userId, file, r);
    if !st.threw {
      WriteProfileFacts(userId, p, r);
    } else {
      assert tail[0] == SaveFailedToast;
      assert !HasInsert(tail);
    }
    CallsAfter(st.effects, tail);
    WritesAfter(st.effects, tail, userId, p);
    InsertsAfter(st.effects, tail);
  }

  /** Finishing starts by asking for the session and ends in completion
      exactly when no exception escaped, in the save-failed notice otherwise. */
  lemma FinishEnds(d: Draft, file: Option<FileInfo>, r: FinishReplies)
    ensures var es := FinishEffects(d, file, r);
      |es| >= 2 && es[0] == GetSession
      && es[|es| - 1] == (if FinishThrows(file, r) then SaveFailedToast else OnboardingComplete)
  {
    var rest := AfterSession(d, file, r);
    var last := if FinishThrows(file, r) then SaveFailedToast else OnboardingComplete;
    match r.session {
      case Throws(_) =>
        assert rest == [SaveFailedToast];
      case Returns(None) =>
        assert rest == [OnboardingComplete];
      case Returns(Some(u)) =>
        SaveFacts(u.id, d, file, r);
        assert rest == SaveProfile(u.id, d, file, r);
    }
    assert |rest| >= 1 && rest[|rest| - 1] == last;
    var es := FinishEffects(d, file, r);
    assert es == [GetSession] + rest;
    assert es[|es| - 1] == rest[|rest| - 1];
  }

  /** Between the session lookup and the last effect there are only backend
      calls: no second sign-up, no early completion, no notice. */
  lemma FinishCallsBetween(d: Draft, file: Option<FileInfo>, r: FinishReplies)
    ensures var es := FinishEffects(d, file, r);
      forall i :: 0 < i < |es| - 1 ==> IsCall(es[i])
  {
    var rest := AfterSession(d, file, r);
    if r.session.Returns? && r.session.value.Some? {
      SaveFacts(r.session.value.value.id, d, file, r);
    }
    assert CallsBeforeLast(rest);
    var es := FinishEffects(d, file, r);
    forall i | 0 < i < |es| - 1 ensures IsCall(es[i]) {
      assert es[i] == rest[i - 1];
    }
  }

  /** With no session the save is skipped and completion still fires. */
  lemma FinishWithoutSession(d: Draft, file: Option<FileInfo>, r: FinishReplies)
    requires r.session == Returns(None)
    ensures FinishEffects(d, file, r) == [GetSession, OnboardingComplete]
  {
  }

  /** Every profile write goes to the session's user with the payload built
      from the draft and the avatar stage's URL (so, by `BuildPayload`'s
      contract, marked completed, with an avatar URL exactly when a non-empty
      signed URL came back); without a session user nothing is written. */
  lemma FinishPayloads(d: Draft, file: Option<FileInfo>, r: FinishReplies)
    ensures var es := FinishEffects(d, file, r);
      match r.session
      case Returns(Some(u)) => WritesAs(es, u.id, BuildPayload(d, UploadAvatar(u.id, file, r).url))
      case _ => NoWrites(es)
  {
    var rest := AfterSession(d, file, r);
    assert NoWrites([GetSession]);
    match r.session
    case Returns(Some(u)) =>
      SaveFacts(u.id, d, file, r);
      WritesAfter([GetSession], rest, u.id, BuildPayload(d, UploadAvatar(u.id, file, r).url));
    case _ =>
      assert NoWrites(rest);
      NoWritesAfter([GetSession], rest);
  }

  /** A signed-in user whose avatar part did not throw gets the profile
      update, right after the session lookup and the avatar calls, with the
      payload built from the draft and the signed URL, whatever the later
      replies are. */
  lemma FinishIssuesUpdate(d: Draft, file: Option<FileInfo>, r: FinishReplies)
    requires r.session.Returns? && r.session.value.Some? && !AvatarThrows(file, r)
    ensures var u := r.session.value.value; var st := UploadAvatar(u.id, file, r);
      var es := FinishEffects(d, file, r);
      1 + |st.effects| < |es| && es[1 + |st.effects|] == UpdateProfile(u.id, BuildPayload(d, st.url))
    ensures file.None? ==>
      FinishEffects(d, file, r)[1] == UpdateProfile(r.session.value.value.id, BuildPayload(d, None))
      && BuildPayload(d, None).avatarUrl.None?
  {
    var u := r.session.value.value;
    var rest := SaveProfile(u.id, d, file, r);
    SaveIssuesUpdate(u.id, d, file, r);
    assert AfterSession(d, file, r) == rest;
    assert FinishEffects(d, file, r) == [GetSession] + rest;
  }

  /** The insert happens exactly when a signed-in save got as far as the
      update and the update returned an error (not when it matched no row);
      it comes right after the update, with the same payload. */
  lemma FinishUpdateThenInsert(d: Draft, file: Option<FileInfo>, r: FinishReplies)
    ensures var es := FinishEffects(d, file, r);
      HasInsert(es) <==>
        (r.session.Returns? && r.session.value.Some? && !AvatarThrows(file, r)
         && r.update.Returns? && r.update.value.Failed?)
    ensures InsertFollowsUpdate(FinishEffects(d, file, r))
  {
    var rest := AfterSession(d, file, r);
    assert NoWrites([GetSession]);
    if r.session.Returns? && r.session.value.Some? {
      SaveFacts(r.session.value.value.id, d, file, r);
    } else {
      assert !HasInsert(rest) && InsertFollowsUpdate(rest);
    }
    InsertsAfter([GetSession], rest);
  }

  /** A staged avatar is uploaded (overwriting) to `<userId>/avatar.<ext>`
      in the profile-pictures bucket, and a successful upload asks for a URL
      signed for one year (31,536,000 s). */
  lemma FinishAvatarCalls(userId: string, f: FileInfo, r: FinishReplies)
    ensures var st := UploadAvatar(userId, Some(f), r);
      |st.effects| >= 1 && st.effects[0] == Upload(AvatarBucket, AvatarPath(userId, f.name), f, true)
      && (r.upload == Returns(Ok) <==> |st.effects| == 2)
      && (|st.effects| == 2 ==> st.effects[1] == CreateSignedUrl(AvatarBucket, AvatarPath(userId, f.name), 31536000))
  {
  }

  // ---------------------------------------------------------------------
  // Navigation rules

  /** The lowest step the wizard goes back to: the account step is skipped
      for a signed-in user. */
  function Floor(userPresent: bool): (n: nat)
    ensures n <= 1
    ensures n == 1 <==> userPresent
  {
    if userPresent then 1 else 0
  }

  /** Back is offered above the floor. */
  predicate BackShown(step: int, userPresent: bool)
  {
    step > 0 && step > Floor(userPresent)
  }

  /** Next is enabled when the step's gate holds; on the two steps that call
      the backend it is also disabled while a call is outstanding. */
  predicate NextEnabled(step: int, loading: bool, d: Draft)
  {
    CanProceed(step, d) && (1 <= step <= 3 || !loading)
  }

  // ---------------------------------------------------------------------
  // The wizard component

  class Wizard {
    var user: Option<SessionUser>
    var step: nat
    var loading: bool
    var avatarFile: Option<FileInfo>
    var avatarLoading: bool
    var draft: Draft
    /** Calls and notices issued so far, oldest first. */
    var effects: seq<Effect>

    ghost predicate Valid()
      reads this
    {
      step <= LastStep
      && (avatarFile.Some? ==> CheckAvatar(avatarFile.value) == Accepted)
      && (avatarLoading ==> avatarFile.Some?)
    }

    /** The step is not below the floor for the current user. */
    predicate AboveFloor()
      reads this
    {
      step >= Floor(user.Some?)
    }

    constructor (user: Option<SessionUser>)
      ensures Valid() && AboveFloor()
      ensures this.user == user && step == Floor(user.Some?)
      ensures draft == Prefill(EmptyDraft, user)
      ensures !loading && avatarFile.None? && !avatarLoading && effects == []
    {
      this.user := user;
      step := if user.Some? then 1 else 0;
      loading := false;
      avatarFile := None;
      avatarLoading := false;
      draft := Prefill(EmptyDraft, user);
      effects := [];
    }

    /** The auth context reports a different user: the Back rule reads it, and
        the prefill effect copies its name and e-mail into the draft. */
    method UserChanged(u: Option<SessionUser>)
      requires Valid()
      modifies this
      ensures Valid()
      ensures user == u && draft == Prefill(old(draft), u)
      ensures step == old(step) && loading == old(loading) && effects == old(effects)
      ensures avatarFile == old(avatarFile) && avatarLoading == old(avatarLoading)
    {
      user := u;
      draft := Prefill(draft, u);
    }

    /** Typing into an input, or picking a single-choice option. */
    method Edit(f: Field, v: string)
      requires Valid()
      modifies this
      ensures Valid() && (old(AboveFloor()) ==> AboveFloor())
      ensures draft == SetField(old(draft), f, v)
      ensures step == old(step) && user == old(user) && loading == old(loading) && effects == old(effects)
      ensures avatarFile == old(avatarFile) && avatarLoading == old(avatarLoading)
    {
      draft := SetField(draft, f, v);
    }

    /** The district select: the upazila is cleared with it. */
    method ChooseDistrict(district: string)
      requires Valid()
      modifies this
      ensures Valid() && (old(AboveFloor()) ==> AboveFloor())
      ensures draft == SelectDistrict(old(draft), district)
      ensures !CanProceed(0, draft)
      ensures step == old(step) && user == old(user) && loading == old(loading) && effects == old(effects)
      ensures avatarFile == old(avatarFile) && avatarLoading == old(avatarLoading)
    {
      draft := SelectDistrict(draft, district);
    }

    /** The upazila select, disabled until a district is chosen. */
    method ChooseUpazila(upazila: string)
      requires Valid()
      modifies this
      ensures Valid() && (old(AboveFloor()) ==> AboveFloor())
      ensures draft == if old(draft.district) == "" then old(draft) else old(draft).(upazila := upazila)
      ensures step == old(step) && user == old(user) && loading == old(loading) && effects == old(effects)
      ensures avatarFile == old(avatarFile) && avatarLoading == old(avatarLoading)
    {
      if draft.district != "" {
        draft := draft.(upazila := upazila);
      }
    }

    method ToggleFarmerType(value: string)
      requires Valid()
      modifies this
      ensures Valid() && (old(AboveFloor()) ==> AboveFloor())
      ensures draft == old(draft).(farmerTypes := Toggle(old(draft.farmerTypes), value))
      ensures step == old(step) && user == old(user) && loading == old(loading) && effects == old(effects)
      ensures avatarFile == old(avatarFile) && avatarLoading == old(avatarLoading)
    {
      draft := draft.(farmerTypes := Toggle(draft.farmerTypes, value));
    }

    method ToggleChallenge(value: string)
      requires Valid()
      modifies this
      ensures Valid() && (old(AboveFloor()) ==> AboveFloor())
      ensures draft == old(draft).(challenges := Toggle(old(draft.challenges), value))
      ensures step == old(step) && user == old(user) && loading == old(loading) && effects == old(effects)
      ensures avatarFile == old(avatarFile) && avatarLoading == old(avatarLoading)
    {
      draft := draft.(challenges := Toggle(draft.challenges, value));
    }

    /** The file input's change handler. No file: nothing happens. A rejected
        file: only a notice naming the reason. Otherwise the file is staged and
        its preview starts loading. */
    method SelectAvatar(file: Option<FileInfo>)
      requires Valid()
      modifies this
      ensures Valid() && (old(AboveFloor()) ==> AboveFloor())
      ensures file.None? ==> avatarFile == old(avatarFile) && avatarLoading == old(avatarLoading) && effects == old(effects)
      ensures file.Some? && CheckAvatar(file.value) == NotAnImage ==>
        avatarFile == old(avatarFile) && avatarLoading == old(avatarLoading)
        && effects == old(effects) + [Toast(ErrorNotice(ImageOnly))]
      ensures file.Some? && CheckAvatar(file.value) == TooLarge ==>
        avatarFile == old(avatarFile) && avatarLoading == old(avatarLoading)
        && effects == old(effects) + [Toast(ErrorNotice(ImageSize))]
      ensures file.Some? && CheckAvatar(file.value) == Accepted ==>
        avatarFile == file && avatarLoading && effects == old(effects)
      ensures step == old(step) && user == old(user) && loading == old(loading) && draft == old(draft)
    {
      if file.None? {
        return;
      }
      var f := file.value;
      match CheckAvatar(f)
      case NotAnImage =>
        effects := effects + [Toast(ErrorNotice(ImageOnly))];
      case TooLarge =>
        effects := effects + [Toast(ErrorNotice(ImageSize))];
      case Accepted =>
        avatarLoading := true;
        avatarFile := Some(f);
    }

    /** The file reader delivered the preview. */
    method AvatarPreviewLoaded()
      requires Valid()
      modifies this
      ensures Valid() && (old(AboveFloor()) ==> AboveFloor())
      ensures !avatarLoading && avatarFile == old(avatarFile)
      ensures step == old(step) && user == old(user) && loading == old(loading) && effects == old(effects)
      ensures draft == old(draft)
    {
      avatarLoading := false;
    }

    /** Leaving step 0: one sign-up call with the trimmed e-mail; on success
        the wizard moves to step 1, on a returned or thrown error it stays. */
    method CreateAccount(reply: Reply<Status>)
      requires Valid()
      modifies this
      ensures Valid() && (old(AboveFloor()) ==> AboveFloor())
      ensures effects == old(effects) + [SignUp(Trim(old(draft.email)), old(draft.password), old(draft.fullName)),
                                         Toast(SignUpNotice(reply))]
      ensures step == if reply == Returns(Ok) then 1 else old(step)
      ensures !loading
      ensures user == old(user) && draft == old(draft)
      ensures avatarFile == old(avatarFile) && avatarLoading == old(avatarLoading)
    {
      loading := true;
      effects := effects + [SignUp(Trim(draft.email), draft.password, draft.fullName)];
      match reply {
        case Returns(Failed(m)) =>
          effects := effects + [Toast(ErrorNotice(Message(m)))];
          loading := false;
          return;
        case Returns(Ok) =>
          effects := effects + [Toast(AccountCreated)];
          step := 1;
        case Throws(m) =>
          effects := effects + [Toast(ErrorNotice(if m == "" then AccountCreateFailed else Message(m)))];
      }
      loading := false;
    }

    /** Not a handler of its own: the avatar part of `FinishOnboarding`
        (`handleFinishOnboarding`). It uploads the staged file, then asks for
        a signed URL when the upload reported no error. */
    method UploadAvatarStep(userId: string, r: FinishReplies) returns (avatarUrl: Option<string>, threw: bool)
      modifies this
      ensures var st := UploadAvatar(userId, old(avatarFile), r);
        effects == old(effects) + st.effects && avatarUrl == st.url && threw == st.threw
      ensures step == old(step) && user == old(user) && draft == old(draft) && loading == old(loading)
      ensures avatarFile == old(avatarFile) && avatarLoading == old(avatarLoading)
    {
      var calls: seq<Effect> := [];
      avatarUrl, threw := None, false;
      if avatarFile.Some? {
        var f := avatarFile.value;
        var path := AvatarPath(userId, f.name);
        calls := [Upload(AvatarBucket, path, f, true)];
        match r.upload {
          case Throws(_) =>
            threw := true;
          case Returns(Failed(_)) =>
          case Returns(Ok) =>
            calls := calls + [CreateSignedUrl(AvatarBucket, path, SignedUrlTtlSeconds)];
            match r.signedUrl {
              case Throws(_) =>
                threw := true;
              case Returns(signed) =>
                if signed.Some? && signed.value != "" {
                  avatarUrl := signed;
                }
            }
        }
      }
      assert calls == UploadAvatar(userId, avatarFile, r).effects;
      effects := effects + calls;
    }

    /** Not a handler of its own: the profile write of `FinishOnboarding`.
        It updates the user's row, inserts one when the update reported an
        error, then completes, or shows the save-failed notice when an
        exception escaped. */
    method WriteProfileStep(userId: string, payload: Payload, r: FinishReplies)
      modifies this
      ensures effects == old(effects) + WriteProfile(userId, payload, r)
      ensures step == old(step) && user == old(user) && draft == old(draft) && loading == old(loading)
      ensures avatarFile == old(avatarFile) && avatarLoading == old(avatarLoading)
    {
      effects := effects + [UpdateProfile(userId, payload)];
      var threw := false;
      match r.update {
        case Throws(_) =>
          threw := true;
        case Returns(Ok) =>
        case Returns(Failed(_)) =>
          effects := effects + [InsertProfile(userId, payload)];
          threw := r.insert.Throws?;
      }
      effects := effects + [if threw then SaveFailedToast else OnboardingComplete];
    }

    /** Not a handler of its own: the part of `FinishOnboarding` that saves
        for a signed-in user. It runs the avatar part, then the profile write
        unless an exception already escaped, in which case the save-failed
        notice is shown. */
    method SaveStep(userId: string, r: FinishReplies)
      modifies this
      ensures effects == old(effects) + SaveProfile(userId, old(draft), old(avatarFile), r)
      ensures step == old(step) && user == old(user) && draft == old(draft) && loading == old(loading)
      ensures avatarFile == old(avatarFile) && avatarLoading == old(avatarLoading)
    {
      ghost var before := effects;
      var avatarUrl, threw := UploadAvatarStep(userId, r);
      ghost var st := UploadAvatar(userId, avatarFile, r);
      if threw {
        effects := effects + [SaveFailedToast];
        assert effects == before + (st.effects + [SaveFailedToast]);
      } else {
        var payload := BuildPayload(draft, avatarUrl);
        WriteProfileStep(userId, payload, r);
        assert effects == before + (st.effects + WriteProfile(userId, payload, r));
      }
    }

    /** Finishing step 4: look up the session, save the avatar and the
        profile for a signed-in user, then complete; any exception on the way
        ends in the save-failed notice instead. The step never changes. */
    method FinishOnboarding(r: FinishReplies)
      requires Valid()
      modifies this
      ensures Valid() && (old(AboveFloor()) ==> AboveFloor())
      ensures effects == old(effects) + FinishEffects(old(draft), old(avatarFile), r)
      ensures !loading
      ensures step == old(step) && user == old(user) && draft == old(draft)
      ensures avatarFile == old(avatarFile) && avatarLoading == old(avatarLoading)
    {
      loading := true;
      ghost var before := effects;
      effects := effects + [GetSession];
      match r.session {
        case Throws(_) =>
          effects := effects + [SaveFailedToast];
        case Returns(None) =>
          effects := effects + [OnboardingComplete];
        case Returns(Some(u)) =>
          SaveStep(u.id, r);
      }
      assert effects == before + ([GetSession] + AfterSession(draft, avatarFile, r));
      loading := false;
    }

    /** The Next / Create account / Finish button. A disabled button does
        nothing; steps 1-3 advance by one; steps 0 and 4 hand over to the
        account-creation and finishing handlers. */
    method Next(signUp: Reply<Status>, finish: FinishReplies)
      requires Valid()
      modifies this
      ensures Valid() && (old(AboveFloor()) ==> AboveFloor())
      ensures !old(NextEnabled(step, loading, draft)) ==>
        step == old(step) && effects == old(effects) && loading == old(loading)
      ensures old(NextEnabled(step, loading, draft)) && 1 <= old(step) <= 3 ==>
        step == old(step) + 1 && effects == old(effects) && loading == old(loading)
      ensures old(NextEnabled(step, loading, draft)) && old(step) == 0 ==>
        step == (if signUp == Returns(Ok) then 1 else 0) && !loading
        && effects == old(effects) + [SignUp(Trim(old(draft.email)), old(draft.password), old(draft.fullName)),
                                      Toast(SignUpNotice(signUp))]
      ensures old(NextEnabled(step, loading, draft)) && old(step) == 4 ==>
        step == 4 && !loading && effects == old(effects) + FinishEffects(old(draft), old(avatarFile), finish)
      ensures user == old(user) && draft == old(draft)
      ensures avatarFile == old(avatarFile) && avatarLoading == old(avatarLoading)
    {
      if !NextEnabled(step, loading, draft) {
        return;
      }
      if step == 0 {
        CreateAccount(signUp);
      } else if step == 4 {
        FinishOnboarding(finish);
      } else {
        step := step + 1;
      }
    }

    /** The Back button, shown above the floor, goes one step down. */
    method Back()
      requires Valid()
      modifies this
      ensures Valid() && (old(AboveFloor()) ==> AboveFloor())
      ensures old(BackShown(step, user.Some?)) ==> step == old(step) - 1 && AboveFloor()
      ensures !old(BackShown(step, user.Some?)) ==> step == old(step)
      ensures user == old(user) && draft == old(draft) && loading == old(loading) && effects == old(effects)
      ensures avatarFile == old(avatarFile) && avatarLoading == old(avatarLoading)
    {
      if BackShown(step, user.Some?) {
        step := step - 1;
      }
    }
  }

  /** The floor follows the current user, not the one the wizard was opened
      with: a wizard opened by a signed-in user starts at step 1, and after a
      sign-out its Back button takes it down to step 0. */
  method BackAfterSignOut(u: SessionUser) returns (startStep: nat, w: Wizard)
    ensures startStep == 1 && w.step == 0 && w.user.None?
  {
    w := new Wizard(Some(u));
    startStep := w.step;
    w.UserChanged(None);
    w.Back();
  }
}
