/** The referrals page: the invitation link, the referral bonus on show, and
    moving that bonus to the main balance. */
module Referrals {
  import opened Wrappers
  import opened Notices
  import Dashboard

  /** The profile fields the page loads. */
  datatype Profile = Profile(username: string, referralBonus: real)

  /** `referralLink`: the sign-up address carrying the username as `ref`, or
      "" before a profile is loaded. */
  function ReferralLink(origin: string, profile: Option<Profile>): (link: string)
    ensures link == "" <==> profile.None?
    ensures profile.Some? ==>
      var u := profile.value.username;
      && |link| == |origin| + |"/signup?ref="| + |u|
      && link[..|origin|] == origin
      && link[|origin|..|origin| + |"/signup?ref="|] == "/signup?ref="
      && link[|link| - |u|..] == u
  {
    if profile.None? then ""
    else origin + "/signup?ref=" + profile.value.username
  }

  /** `profile?.referral_bonus || 0`: the bonus on show. */
  function ShownBonus(profile: Option<Profile>): (b: real)
    ensures profile.None? ==> b == 0.0
    ensures profile.Some? ==> b == profile.value.referralBonus
  {
    if profile.None? || profile.value.referralBonus == 0.0 then 0.0 else profile.value.referralBonus
  }

  /** The "Withdraw to Main Balance" button's `disabled`. */
  predicate WithdrawBonusDisabled(isWithdrawing: bool, loading: bool, profile: Option<Profile>) {
    isWithdrawing || loading || profile.None? || profile.value.referralBonus <= 0.0
  }

  /** An enabled button means a loaded profile whose bonus on show is positive,
      and no withdrawal or load under way. */
  lemma EnabledShowsPositiveBonus(isWithdrawing: bool, loading: bool, profile: Option<Profile>)
    requires !WithdrawBonusDisabled(isWithdrawing, loading, profile)
    ensures !isWithdrawing && !loading && profile.Some?
    ensures ShownBonus(profile) > 0.0
  {
  }

  /** The notification of a bonus withdrawal; the transferred amount in the
      success text is currency formatting and left out. */
  function BonusWithdrawToast(reply: Reply<real>): (t: Toast)
    ensures t.Success? <==> reply.Data?
    ensures reply.Data? ==> t == Success("Withdrawal Successful", "")
    ensures reply.Failed? ==> t == Error("Withdrawal Failed", ErrorText(reply.message))
  {
    match reply
    case Data(_) => Success("Withdrawal Successful", "")
    case Failed(m) => Error("Withdrawal Failed", ErrorText(m))
  }

  const LoadFailedTitle: string := "Failed to load referral data"

  class ReferralsPage {
    var profile: Option<Profile>
    var referralCount: nat
    var loading: bool
    var isWithdrawing: bool
    var copied: bool

    constructor ()
      ensures profile.None? && referralCount == 0 && loading && !isWithdrawing && !copied
    {
      profile := None;
      referralCount := 0;
      loading := true;
      isWithdrawing := false;
      copied := false;
    }

    function Link(origin: string): string
      reads this
    {
      ReferralLink(origin, profile)
    }

    predicate ButtonDisabled()
      reads this
    {
      WithdrawBonusDisabled(isWithdrawing, loading, profile)
    }

    /** `fetchData` finishing, given the signed-in user and the replies of the
        profile and the referral-count queries: both go in together, the
        profile error is reported first, and nothing is kept unless both
        succeed; loading ends either way. */
    method FetchCompleted(user: Option<string>, profileReply: Reply<Profile>, countReply: Reply<Option<nat>>)
      returns (t: Option<Toast>)
      modifies this
      ensures !loading
      ensures user.None? ==> t == Some(Error(LoadFailedTitle, "User not found"))
      ensures user.Some? && profileReply.Failed? ==> t == Some(Error(LoadFailedTitle, profileReply.message))
      ensures user.Some? && profileReply.Data? && countReply.Failed? ==>
        t == Some(Error(LoadFailedTitle, countReply.message))
      ensures t.None? <==> user.Some? && profileReply.Data? && countReply.Data?
      ensures t.None? ==> profile == Some(profileReply.data)
                          && referralCount == Dashboard.ReferralCountShown(countReply.data)
      ensures t.Some? ==> profile == old(profile) && referralCount == old(referralCount)
      ensures isWithdrawing == old(isWithdrawing) && copied == old(copied)
    {
      if user.None? {
        t := Some(Error(LoadFailedTitle, "User not found"));
      } else if profileReply.Failed? {
        t := Some(Error(LoadFailedTitle, profileReply.message));
      } else if countReply.Failed? {
        t := Some(Error(LoadFailedTitle, countReply.message));
      } else {
        profile := Some(profileReply.data);
        referralCount := Dashboard.ReferralCountShown(countReply.data);
        t := None;
      }
      loading := false;
    }

    /** `copyToClipboard`: the link written to the clipboard and the copied
        mark raised. */
    method CopyLink(origin: string) returns (clipboard: string, t: Toast)
      modifies this
      ensures clipboard == ReferralLink(origin, profile)
      ensures copied && t == Success("Referral link copied to clipboard!", "")
      ensures profile == old(profile) && referralCount == old(referralCount)
      ensures loading == old(loading) && isWithdrawing == old(isWithdrawing)
    {
      clipboard := ReferralLink(origin, profile);
      copied := true;
      t := Success("Referral link copied to clipboard!", "");
    }

    /** The three-second timer set by `copyToClipboard` going off. */
    method CopyTimerElapsed()
      modifies this
      ensures !copied
      ensures profile == old(profile) && referralCount == old(referralCount)
      ensures loading == old(loading) && isWithdrawing == old(isWithdrawing)
    {
      copied := false;
    }

    /** `handleWithdrawBonus`, given the reply of `withdraw_referral_bonus`:
        the notification above, a re-fetch after success, and the
        withdrawing flag, raised while the call runs, down again on every
        path. */
    method HandleWithdrawBonus(reply: Reply<real>) returns (t: Toast, refetch: bool)
      modifies this
      ensures t == BonusWithdrawToast(reply)
      ensures refetch <==> reply.Data?
      ensures !isWithdrawing
      ensures profile == old(profile) && referralCount == old(referralCount)
      ensures loading == old(loading) && copied == old(copied)
    {
      t := BonusWithdrawToast(reply);
      refetch := reply.Data?;
      isWithdrawing := false;
    }
  }
}
