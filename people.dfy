/**
 * Member profiles: the profile record with its email bookkeeping, and the
 * hook that gives every newly created user account its profile.
 */
module People {
  import opened Base
  import opened EmailLimit

  /** Default minimum pause between two messages of one profile, in minutes. */
  const MessageWaitPeriod: int := 60
  /** Default lifetime number of messages a profile may send. */
  const InitialMaxMessages: int := 100
  /** Default role of a new profile. */
  const DefaultRole: string := "other"

  /** The columns of one profile, as a value. */
  datatype ProfileRow = ProfileRow(
    user: UserId,
    location: string,
    url: string,
    role: string,
    twitterId: string,
    allowOrgEmails: bool,
    signupDate: Time,
    email: EmailLog)

  /** A fresh profile of `user` signed up at `now`, every other column at its default. */
  function DefaultRow(user: UserId, now: Time): (row: ProfileRow)
  {
    ProfileRow(user, "", "", DefaultRole, "", false, now, EmailLog(None, 0, InitialMaxMessages))
  }

  /** The accounts owning the profiles `ps`, in order. */
  function Owners(ps: seq<Profile>): (us: seq<UserId>)
    ensures |us| == |ps|
    ensures forall i :: 0 <= i < |ps| ==> us[i] == ps[i].user
  {
    seq(|ps|, i requires 0 <= i < |ps| => ps[i].user)
  }

  class Profile {
    const user: UserId
    const signupDate: Time
    var location: string
    var url: string
    var role: string
    var twitterId: string
    var allowOrgEmails: bool
    var lastEmailSent: Option<Time>
    var numEmailsSent: int
    var allowedEmails: int
    /** What the last save wrote to the database; None before the first save. */
    var stored: Option<ProfileRow>

    /** The email bookkeeping columns. */
    function Log(): EmailLog
      reads this
    {
      EmailLog(lastEmailSent, numEmailsSent, allowedEmails)
    }

    /** All columns, as held in memory. */
    function Row(): ProfileRow
      reads this
    {
      ProfileRow(user, location, url, role, twitterId, allowOrgEmails, signupDate, Log())
    }

    /**
     * A new, not yet saved profile of `user` with every column at its default.
     * The signup date is stamped on the first save; every profile is saved
     * right after it is built, at the same `now`, so it is set here.
     */
    constructor (user: UserId, now: Time)
      ensures Row() == DefaultRow(user, now)
      ensures stored == None
    {
      this.user := user;
      signupDate := now;
      location, url, role, twitterId := "", "", DefaultRole, "";
      allowOrgEmails := false;
      lastEmailSent := None;
      numEmailsSent := 0;
      allowedEmails := InitialMaxMessages;
      stored := None;
    }

    /** Whether this profile may send a message at `now`, under the default wait period. */
    function CanSendEmail(now: Time): (ok: bool)
      reads this
      ensures ok <==> (lastEmailSent.None? || now - lastEmailSent.value > MessageWaitPeriod * MicrosPerMinute)
                      && numEmailsSent < allowedEmails
    {
      CanSend(Log(), now, MessageWaitPeriod)
    }

    /** Persists the in-memory columns. */
    method Save()
      modifies this`stored
      ensures stored == Some(Row())
    {
      stored := Some(Row());
    }

    /** Stamps the send time, counts the message, and saves. */
    method RecordEmailSent(now: Time)
      modifies this`lastEmailSent, this`numEmailsSent, this`stored
      ensures Log() == Recorded(old(Log()), now)
      ensures Row() == old(Row()).(email := Recorded(old(Log()), now))
      ensures stored == Some(Row())
      ensures !CanSendEmail(now)
    {
      lastEmailSent := Some(now);
      numEmailsSent := numEmailsSent + 1;
      Save();
      SameInstantBlocked(old(Log()), now, MessageWaitPeriod);
    }
  }

  /** The user accounts and the profile table. */
  class ProfileStore {
    var users: seq<UserId>
    var profiles: seq<Profile>

    /** Accounts are distinct, and every account owns exactly one profile and no profile lacks an account. */
    ghost predicate Valid()
      reads this
    {
      (forall i, j :: 0 <= i < j < |users| ==> users[i] != users[j]) &&
      (forall u :: multiset(Owners(profiles))[u] == if u in users then 1 else 0)
    }

    constructor ()
      ensures Valid() && users == [] && profiles == []
    {
      users, profiles := [], [];
    }

    /**
     * The post_save handler for user accounts: creates one default profile
     * for `instance` when the account was just created, and nothing otherwise.
     */
    method CreateProfile(instance: UserId, created: bool, now: Time)
      modifies this`profiles
      ensures Owners(profiles) == Owners(old(profiles)) + if created then [instance] else []
      ensures !created ==> profiles == old(profiles)
      ensures created ==> profiles[..|old(profiles)|] == old(profiles)
      ensures created ==>
        && fresh(profiles[|profiles| - 1])
        && profiles[|profiles| - 1].Row() == DefaultRow(instance, now)
        && profiles[|profiles| - 1].stored == Some(DefaultRow(instance, now))
    {
      if created {
        var p := new Profile(instance, now);
        p.Save();
        profiles := profiles + [p];
      }
    }

    /**
     * A user account is saved: it is created when it did not exist yet, and
     * then the post_save hook runs.
     */
    method SaveUser(u: UserId, now: Time) returns (created: bool)
      requires Valid()
      modifies this
      ensures Valid()
      ensures created <==> u !in old(users)
      ensures users == if created then old(users) + [u] else old(users)
      ensures multiset(Owners(profiles))[u] == 1
      // the existing profiles, with their email counts, are kept
      ensures |profiles| == |old(profiles)| + if created then 1 else 0
      ensures profiles[..|old(profiles)|] == old(profiles)
      // a new account gets one fresh, saved, default profile
      ensures created ==>
        && fresh(profiles[|profiles| - 1])
        && profiles[|profiles| - 1].Row() == DefaultRow(u, now)
        && profiles[|profiles| - 1].stored == Some(DefaultRow(u, now))
    {
      created := u !in users;
      if created {
        users := users + [u];
      }
      CreateProfile(u, created, now);
    }
  }
}
