/** The sign-up page: the password checks before `signUp`, and the referrer
    prefilled from the `ref` query parameter of the invitation link. */
module Signup {
  import opened Wrappers
  import opened Notices
  import Settings
  import SearchParams
  import Referrals

  datatype SignupError = Mismatch | NotStrong
  {
    function ErrorToast(): (t: Toast)
      ensures t.Error?
    {
      match this
      case Mismatch => Error("Passwords don't match", "Please make sure both passwords are the same.")
      case NotStrong => Error("Password is not strong enough", "Please meet all the password requirements.")
    }
  }

  /** The checks of `handleSubmit`, in order: the confirmation must match, then
      the three requirements of the checklist (the same as on the settings
      page) must all be met. */
  function CheckSignup(password: string, confirm: string): (r: Result<(), SignupError>)
    ensures r == Err(Mismatch) <==> password != confirm
    ensures r == Err(NotStrong) <==> password == confirm && !Settings.AllRequirementsMet(password)
    ensures r.Ok? <==> password == confirm && Settings.AllRequirementsMet(password)
  {
    if password != confirm then Err(Mismatch)
    else if !Settings.AllRequirementsMet(password) then Err(NotStrong)
    else Ok(())
  }

  /** The two pages report a weak, mistyped password differently: sign-up asks
      for the confirmation first, the settings page for strength first. */
  lemma CheckOrderDiffersFromSettings()
    ensures CheckSignup("abc", "abd") == Err(Mismatch)
    ensures Settings.CheckNewPassword("abc", "abd", None) == Err(Settings.NotStrong)
  {
    Settings.StrongIff("abc");
  }

  /** The `signUp` request: credentials and the profile metadata. */
  datatype SignUpRequest = SignUpRequest(email: string, password: string, fullName: string,
                                         username: string, referrerUsername: string)

  /** One submission: the request sent (if the checks passed), the
      notification, and whether the page moves on to `/login`. */
  datatype SubmitOutcome = SubmitOutcome(request: Option<SignUpRequest>, toast: Option<Toast>, toLogin: bool)

  /** `handleSubmit` on the form's fields, given the `signUp` reply (its data
      says whether a user came back). */
  function SubmitOutcomeOf(email: string, password: string, confirm: string, fullName: string,
                           username: string, referrer: string, reply: Reply<bool>): (o: SubmitOutcome)
    ensures o.request.Some? <==> CheckSignup(password, confirm).Ok?
    ensures o.request.Some? ==> o.request.value == SignUpRequest(email, password, fullName, username, referrer)
    ensures CheckSignup(password, confirm).Err? ==>
      o.toast == Some(CheckSignup(password, confirm).error.ErrorToast()) && !o.toLogin
    ensures o.request.Some? && reply.Failed? ==> o.toast == Some(Error("Signup Failed", reply.message))
    ensures o.toLogin <==> o.request.Some? && reply == Data(true)
    ensures o.toLogin ==> o.toast == Some(Success("Account created!", "Please check your email to verify your account."))
    ensures o.request.Some? && reply == Data(false) ==> o.toast.None?
  {
    match CheckSignup(password, confirm)
    case Err(e) => SubmitOutcome(None, Some(e.ErrorToast()), false)
    case Ok(_) =>
      var request := Some(SignUpRequest(email, password, fullName, username, referrer));
      match reply
      case Failed(m) => SubmitOutcome(request, Some(Error("Signup Failed", m)), false)
      case Data(userCreated) =>
        if userCreated then
          SubmitOutcome(request, Some(Success("Account created!", "Please check your email to verify your account.")), true)
        else SubmitOutcome(request, None, false)
  }

  /** The referrer after the page reads `ref`: a present, non-empty value
      replaces it, anything else leaves it. */
  function RefPrefill(current: string, ref: Option<string>): string {
    if ref.Some? && ref.value != "" then ref.value else current
  }

  /** The query of a referral link is `ref=` and the username. */
  lemma LinkQuery(origin: string, u: string)
    requires '?' !in origin && '#' !in origin && '#' !in u
    ensures SearchParams.Search(origin + "/signup?ref=" + u) == "ref=" + u
  {
    var link := origin + "/signup?ref=" + u;
    assert '#' !in link;
    SearchParams.BeforeAppend(link, "", '#');
    assert link + "" == link;
    var head := origin + "/signup";
    assert '?' !in head;
    assert link == head + ['?'] + ("ref=" + u);
    SearchParams.AfterMarker(head, "ref=" + u, '?');
  }

  /** Following a referral link prefills the referrer with the inviting
      username, provided the origin has no `?` or `#` and the username has no
      `&`, `#` or `+`; an empty username leaves the field as it was. */
  lemma ReferralLinkPrefills(origin: string, p: Referrals.Profile, current: string)
    requires '?' !in origin && '#' !in origin
    requires '&' !in p.username && '#' !in p.username && '+' !in p.username
    ensures var ref := SearchParams.Get(SearchParams.Search(Referrals.ReferralLink(origin, Some(p))), "ref");
      RefPrefill(current, ref) == if p.username == "" then current else p.username
  {
    var u := p.username;
    LinkQuery(origin, u);
    SearchParams.GetSinglePair("ref", u);
    assert "ref" + "=" == "ref=";
  }

  class SignupPage {
    var email: string
    var password: string
    var confirmPassword: string
    var fullName: string
    var username: string
    var referrerUsername: string
    var isLoading: bool

    constructor ()
      ensures email == "" && password == "" && confirmPassword == "" && fullName == ""
      ensures username == "" && referrerUsername == "" && !isLoading
    {
      email := "";
      password := "";
      confirmPassword := "";
      fullName := "";
      username := "";
      referrerUsername := "";
      isLoading := false;
    }

    /** The effect on the page's address: `searchParams.get('ref')`, copied
        into the referrer field when non-empty. */
    method LoadRef(url: string)
      modifies this
      ensures referrerUsername == RefPrefill(old(referrerUsername), SearchParams.Get(SearchParams.Search(url), "ref"))
      ensures email == old(email) && password == old(password) && confirmPassword == old(confirmPassword)
      ensures fullName == old(fullName) && username == old(username) && isLoading == old(isLoading)
    {
      var ref := SearchParams.Get(SearchParams.Search(url), "ref");
      if ref.Some? && ref.value != "" {
        referrerUsername := ref.value;
      }
    }

    /** `handleSubmit`: the outcome above on the form. Loading is raised only
        past the checks, while the call is outstanding, and is down again once
        the reply is in; only that final value is modelled. */
    method HandleSubmit(reply: Reply<bool>) returns (o: SubmitOutcome)
      modifies this
      ensures o == SubmitOutcomeOf(old(email), old(password), old(confirmPassword), old(fullName),
                                   old(username), old(referrerUsername), reply)
      ensures isLoading == (if o.request.Some? then false else old(isLoading))
      ensures email == old(email) && password == old(password) && confirmPassword == old(confirmPassword)
      ensures fullName == old(fullName) && username == old(username) && referrerUsername == old(referrerUsername)
    {
      o := SubmitOutcomeOf(email, password, confirmPassword, fullName, username, referrerUsername, reply);
      if o.request.Some? {
        isLoading := false;
      }
    }
  }
}
