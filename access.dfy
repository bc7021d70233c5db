/** The access gate and the admin commands over the user store. The store
    maps a user id to the instant its access expires; time is a count of
    seconds, passed in where the bot reads the clock. */
module Access {
  import opened Wrappers
  import opened Strings

  /** The one user allowed to run admin commands. */
  const AdminId: int := 7445620075

  const SecondsPerDay: int := 86400

  /** The store encodes a user id as a signed 64-bit integer; a filter on an
      id outside that range makes the driver raise. */
  predicate StorableId(uid: int) {
    -0x8000_0000_0000_0000 <= uid < 0x8000_0000_0000_0000
  }

  /** `is_authorized`: a record exists and `now` is strictly before its expiry. */
  predicate Authorized(records: map<int, int>, uid: int, now: int) {
    uid in records && now < records[uid]
  }

  /** What an admin command answers. */
  datatype AdminReply =
    | NoReply                           // the command returned without answering
    | AdminOnly                         // "Admin only"
    | Usage                             // "Usage: /add user_id days"
    | Added(uid: int, expiry: int)      // "User <uid> added", with the expiry date
    | Removed(uid: int)                 // "User <uid> removed"
    | Listing(text: string)             // the users listing
    | Raised                            // the handler raised (bad or missing argument, or an id the store cannot encode)

  const ListHeader: string := "\U{1F4CB} Users:\n\n"
  const NoUsers: string := "No users"

  /** The `/add` arguments: a user id and a day count, both integers. */
  function AddArgs(args: seq<string>): (r: Option<(int, int)>)
    ensures r.Some? <==> |args| >= 2 && ParseInt(args[0]).Some? && ParseInt(args[1]).Some?
  {
    if |args| >= 2 && ParseInt(args[0]).Some? && ParseInt(args[1]).Some? then
      Some((ParseInt(args[0]).value, ParseInt(args[1]).value))
    else
      None
  }

  /** Arguments written the way the bot prints ids and day counts parse back
      to those numbers; arguments after the second are ignored. */
  lemma AddArgsRoundTrip(uid: int, days: int, extra: seq<string>)
    ensures AddArgs([IntToString(uid), IntToString(days)] + extra) == Some((uid, days))
  {
    var args := [IntToString(uid), IntToString(days)] + extra;
    assert args[0] == IntToString(uid) && args[1] == IntToString(days);
    IntRoundTrip(uid);
    IntRoundTrip(days);
  }

  /** `int()` accepts ids that the store cannot encode, so `/add` parses
      `2^63` and then raises at the upsert. */
  lemma ParsedIdBeyondStore(days: int, extra: seq<string>)
    ensures var uid := 0x8000_0000_0000_0000;
            AddArgs([IntToString(uid), IntToString(days)] + extra) == Some((uid, days)) && !StorableId(uid)
  {
    AddArgsRoundTrip(0x8000_0000_0000_0000, days, extra);
  }

  /** The expiry `add_user` stores: `days` whole days after `now`. */
  function ExpiryAfter(now: int, days: int): int {
    now + days * SecondsPerDay
  }

  /** One listing line: the id, an arrow, the rendered expiry date. */
  function UserLine(uid: int, expiry: int, render: int -> string): string {
    IntToString(uid) + " \U{2192} " + render(expiry) + "\n"
  }

  /** `order` is one enumeration of the store's ids: every id once. */
  predicate Enumerates(order: seq<int>, records: map<int, int>) {
    && (forall uid :: uid in order ==> uid in records)
    && (forall uid :: uid in records ==> uid in order)
    && (forall i, j :: 0 <= i < j < |order| ==> order[i] != order[j])
  }

  /** The listing lines, in the order the store yields its records. */
  function UserLines(records: map<int, int>, order: seq<int>, render: int -> string): (ls: seq<string>)
    requires forall uid :: uid in order ==> uid in records
    ensures |ls| == |order|
    ensures forall i :: 0 <= i < |order| ==> ls[i] == UserLine(order[i], records[order[i]], render)
  {
    if order == [] then []
    else [UserLine(order[0], records[order[0]], render)] + UserLines(records, order[1..], render)
  }

  /** Concatenation of a list of strings. */
  function Concat(ls: seq<string>): string {
    if ls == [] then "" else ls[0] + Concat(ls[1..])
  }

  lemma {:induction false} ConcatAppend(ls: seq<string>, l: string)
    ensures Concat(ls + [l]) == Concat(ls) + l
    decreases |ls|
  {
    if ls == [] {
      assert [] + [l] == [l];
    } else {
      assert (ls + [l])[1..] == ls[1..] + [l];
      ConcatAppend(ls[1..], l);
    }
  }

  lemma AppendAssoc(a: string, b: string, c: string)
    ensures (a + b) + c == a + (b + c)
  {
  }

  /** Extending a prefix by one element appends that element's text. */
  lemma ConcatPrefix(ls: seq<string>, i: nat)
    requires i < |ls|
    ensures Concat(ls[..i + 1]) == Concat(ls[..i]) + ls[i]
  {
    assert ls[..i + 1] == ls[..i] + [ls[i]];
    ConcatAppend(ls[..i], ls[i]);
  }

  /** The listing text the loop of `list_users` accumulates. */
  function ListingText(records: map<int, int>, order: seq<int>, render: int -> string): string
    requires forall uid :: uid in order ==> uid in records
  {
    ListHeader + Concat(UserLines(records, order, render))
  }

  /** `msg or "No users"`: the fallback applies only to an empty message. */
  function OrNoUsers(msg: string): string {
    if msg == "" then NoUsers else msg
  }

  /** The listing always starts with its header, so it is never empty and
      the "No users" fallback is never taken, not even for an empty store. */
  lemma ListingNeverFallsBack(records: map<int, int>, order: seq<int>, render: int -> string)
    requires Enumerates(order, records)
    ensures ListingText(records, order, render)[..|ListHeader|] == ListHeader
    ensures OrNoUsers(ListingText(records, order, render)) == ListingText(records, order, render)
    ensures records == map[] ==> OrNoUsers(ListingText(records, order, render)) == ListHeader
  {
  }

  /** The reply the listing evidently intends: "No users" exactly when the
      store is empty, the listing otherwise. */
  function IntendedListReply(records: map<int, int>, order: seq<int>, render: int -> string): (r: string)
    requires Enumerates(order, records)
    ensures r == NoUsers <==> records == map[]
    ensures records != map[] ==> r == ListingText(records, order, render)
  {
    var text := ListingText(records, order, render);
    assert text[..|ListHeader|] == ListHeader;
    assert text[0] != NoUsers[0];
    if records == map[] then NoUsers else text
  }

  /** A user with no record is never authorized. */
  lemma NoRecordDenied(records: map<int, int>, uid: int, now: int)
    requires uid !in records
    ensures !Authorized(records, uid, now)
  {
  }

  /** With a record, access holds exactly while `now` is before the expiry;
      at the expiry instant itself it is refused. */
  lemma AuthorizedIffBeforeExpiry(records: map<int, int>, uid: int, now: int)
    requires uid in records
    ensures Authorized(records, uid, now) <==> now < records[uid]
    ensures !Authorized(records, uid, records[uid])
  {
  }

  /** After adding `uid` for `days` days at `now`, `uid` is authorized at `t`
      exactly when `t` is before `now + days` days, whatever the store held;
      every other user's answer is unchanged. */
  lemma AddUserEffect(records: map<int, int>, uid: int, days: int, now: int, t: int)
    ensures Authorized(records[uid := ExpiryAfter(now, days)], uid, t) <==> t < now + days * SecondsPerDay
    ensures forall other :: other != uid ==>
              Authorized(records[uid := ExpiryAfter(now, days)], other, t) == Authorized(records, other, t)
  {
  }

  /** Adding with a positive day count grants access at once; a zero or
      negative count leaves the user expired at once. */
  lemma AddDaysSign(records: map<int, int>, uid: int, days: int, now: int)
    ensures Authorized(records[uid := ExpiryAfter(now, days)], uid, now) <==> days > 0
  {
  }

  /** After removing `uid`, `uid` is refused at any time; nobody else changes. */
  lemma RemoveUserEffect(records: map<int, int>, uid: int, t: int)
    ensures !Authorized(records - {uid}, uid, t)
    ensures forall other :: other != uid ==> Authorized(records - {uid}, other, t) == Authorized(records, other, t)
  {
  }

  /** The `users` collection, held in memory. */
  class UserStore {
    var records: map<int, int>

    constructor ()
      ensures records == map[]
    {
      records := map[];
    }

    /** The upsert of `add_user`: `uid` expires `days` days after `now`,
        whether or not it had a record; no other record changes. */
    method AddUser(uid: int, days: int, now: int) returns (expiry: int)
      modifies this
      ensures expiry == ExpiryAfter(now, days)
      ensures records == old(records)[uid := expiry]
    {
      expiry := now + days * SecondsPerDay;
      records := records[uid := expiry];
    }

    /** The delete of `remove_user`: drop `uid`'s record if there is one. */
    method RemoveUser(uid: int)
      modifies this
      ensures records == old(records) - {uid}
    {
      records := records - {uid};
    }

    /** `/add <user_id> <days>`. The id is parsed inside the `try`, but the
        upsert that rejects an id the store cannot encode runs outside it. */
    method AddCommand(caller: int, args: seq<string>, now: int) returns (reply: AdminReply)
      modifies this
      ensures caller != AdminId ==> reply == AdminOnly && records == old(records)
      ensures caller == AdminId && AddArgs(args).None? ==> reply == Usage && records == old(records)
      ensures caller == AdminId && AddArgs(args).Some? && !StorableId(AddArgs(args).value.0) ==>
                reply == Raised && records == old(records)
      ensures caller == AdminId && AddArgs(args).Some? && StorableId(AddArgs(args).value.0) ==>
                var (uid, days) := AddArgs(args).value;
                && reply == Added(uid, ExpiryAfter(now, days))
                && records == old(records)[uid := ExpiryAfter(now, days)]
    {
      if caller != AdminId {
        return AdminOnly;
      }
      var parsed := AddArgs(args);
      if parsed.None? {
        return Usage;
      }
      var (uid, days) := parsed.value;
      if !StorableId(uid) {
        return Raised;
      }
      var expiry := AddUser(uid, days, now);
      reply := Added(uid, expiry);
    }

    /** `/remove <user_id>`: the argument is not checked, so a missing or
        malformed id, or one the store cannot encode, makes the handler raise. */
    method RemoveCommand(caller: int, args: seq<string>) returns (reply: AdminReply)
      modifies this
      ensures caller != AdminId ==> reply == NoReply && records == old(records)
      ensures caller == AdminId && (|args| == 0 || ParseInt(args[0]).None?) ==>
                reply == Raised && records == old(records)
      ensures caller == AdminId && |args| >= 1 && ParseInt(args[0]).Some? && !StorableId(ParseInt(args[0]).value) ==>
                reply == Raised && records == old(records)
      ensures caller == AdminId && |args| >= 1 && ParseInt(args[0]).Some? && StorableId(ParseInt(args[0]).value) ==>
                reply == Removed(ParseInt(args[0]).value) && records == old(records) - {ParseInt(args[0]).value}
    {
      if caller != AdminId {
        return NoReply;
      }
      if |args| == 0 || ParseInt(args[0]).None? {
        return Raised;
      }
      var uid := ParseInt(args[0]).value;
      if !StorableId(uid) {
        return Raised;
      }
      RemoveUser(uid);
      reply := Removed(uid);
    }

    /** `/users`: the header, then one line per record in the order the
        store yields them (`order`); `render` formats an expiry date. As
        written, `msg or "No users"` always sends `msg`, which holds at least
        the header. */
    method ListCommand(caller: int, order: seq<int>, render: int -> string) returns (reply: AdminReply)
      requires Enumerates(order, records)
      ensures caller != AdminId ==> reply == NoReply
      ensures caller == AdminId ==> reply == Listing(OrNoUsers(ListingText(records, order, render)))
    {
      if caller != AdminId {
        return NoReply;
      }
      ghost var lines := UserLines(records, order, render);
      var msg := ListHeader;
      for i := 0 to |order|
        invariant msg == ListHeader + Concat(lines[..i])
      {
        var uid := order[i];
        var line := UserLine(uid, records[uid], render);
        assert line == lines[i];
        ConcatPrefix(lines, i);
        AppendAssoc(ListHeader, Concat(lines[..i]), line);
        msg := msg + line;
      }
      assert lines[..|order|] == lines;
      assert msg == ListingText(records, order, render);
      reply := Listing(OrNoUsers(msg));
    }
  }
}
