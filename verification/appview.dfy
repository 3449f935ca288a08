/**
 * The appview record: the ordered list of query items the tracker builds
 * when the application reports that the user changed its view.
 */
module Appview {
  import opened Wrappers
  import opened UrlQuery

  /** The tracker's configured values, read when a record is built. */
  datatype Config = Config(
    trackingID: string,
    clientID: string,
    userID: string,
    userIPAddress: string,
    appName: string,
    appVersion: string)

  /** The keys an appview record may hold, in the order they are added. */
  const AppviewKeys: seq<string> := ["v", "tid", "cid", "t", "uid", "uip", "an", "av"]

  /** Position of a key in AppviewKeys (8 for any other key). */
  function KeyRank(key: string): (r: nat)
    ensures r < 8 <==> key in AppviewKeys
    ensures r < 8 ==> AppviewKeys[r] == key
  {
    if key == "v" then 0
    else if key == "tid" then 1
    else if key == "cid" then 2
    else if key == "t" then 3
    else if key == "uid" then 4
    else if key == "uip" then 5
    else if key == "an" then 6
    else if key == "av" then 7
    else 8
  }

  /** `Some(s)` for a non-empty string, `None` for the empty one. */
  function NonEmpty(s: string): Option<string> {
    if s == "" then None else Some(s)
  }

  /** The items every record starts with: protocol version, tracking id,
      client id and hit type. */
  function Header(c: Config): Query {
    [("v", "1"), ("tid", c.trackingID), ("cid", c.clientID), ("t", "appview")]
  }

  /** A single item, or nothing when the value is empty. */
  function ItemIfSet(key: string, value: string): Query {
    if value == "" then [] else [(key, value)]
  }

  /** The configured value when there is one, otherwise the argument. */
  function Prefer(configured: string, argument: string): string {
    if configured != "" then configured else argument
  }

  /** Keys strictly follow the order of AppviewKeys (so no key repeats). */
  predicate Ranked(q: Query) {
    forall i, j :: 0 <= i < j < |q| ==> KeyRank(q[i].0) < KeyRank(q[j].0)
  }

  /** Every key of `q` has rank at least `lo` and below 8. */
  predicate RanksFrom(q: Query, lo: nat) {
    forall i :: 0 <= i < |q| ==> lo <= KeyRank(q[i].0) < 8
  }

  /** The items after the header: user id, user IP address, application
      name and version, each only when it has a value. */
  function OptionalItems(c: Config, appName: string, appVersion: string): Query {
    ItemIfSet("uid", c.userID) +
    (ItemIfSet("uip", c.userIPAddress) +
    (ItemIfSet("an", Prefer(c.appName, appName)) +
     ItemIfSet("av", Prefer(c.appVersion, appVersion))))
  }

  /**
   * The record built for an appview hit from configuration `c` and the
   * arguments `appName` and `appVersion` (the screen name is not used).
   */
  function AppviewQuery(c: Config, appName: string, appVersion: string): (q: Query)
    ensures 4 <= |q| <= 8
    ensures q[..4] == [("v", "1"), ("tid", c.trackingID), ("cid", c.clientID), ("t", "appview")]
    ensures QueryItemValue(q, "uid") == NonEmpty(c.userID)
    ensures QueryItemValue(q, "uip") == NonEmpty(c.userIPAddress)
    ensures QueryItemValue(q, "an") ==
              if c.appName != "" then Some(c.appName) else NonEmpty(appName)
    ensures QueryItemValue(q, "av") ==
              if c.appVersion != "" then Some(c.appVersion) else NonEmpty(appVersion)
  {
    var tail := OptionalItems(c, appName, appVersion);
    OptionalItemsFacts(c, appName, appVersion);
    HeaderSkip(c, tail);
    Header(c) + tail
  }

  /** Every key of a record is one of AppviewKeys, the keys follow that order
      (so none repeats), and no optional item carries an empty value. */
  lemma AppviewQueryWellFormed(c: Config, appName: string, appVersion: string)
    ensures var q := AppviewQuery(c, appName, appVersion);
      (forall i :: 0 <= i < |q| ==> q[i].0 in AppviewKeys) &&
      Ranked(q) &&
      (forall i :: 4 <= i < |q| ==> q[i].1 != "")
  {
    var tail := OptionalItems(c, appName, appVersion);
    OptionalItemsFacts(c, appName, appVersion);
    HeaderThen(c, tail);
  }

  /** The record is the header, then the optional items in key order. */
  lemma AppviewQueryPieces(c: Config, appName: string, appVersion: string)
    ensures AppviewQuery(c, appName, appVersion) ==
              Header(c) + ItemIfSet("uid", c.userID) + ItemIfSet("uip", c.userIPAddress) +
              ItemIfSet("an", Prefer(c.appName, appName)) +
              ItemIfSet("av", Prefer(c.appVersion, appVersion))
  {
  }

  /** A header followed by items of rank 4 and above is ranked, uses only
      keys of AppviewKeys, and its items past the header are those of the tail. */
  lemma HeaderThen(c: Config, tail: Query)
    requires Ranked(tail) && RanksFrom(tail, 4)
    requires forall i :: 0 <= i < |tail| ==> tail[i].1 != ""
    ensures var q := Header(c) + tail;
      Ranked(q) && (forall i :: 0 <= i < |q| ==> q[i].0 in AppviewKeys) &&
      forall i :: 4 <= i < |q| ==> q[i].1 != ""
  {
  }

  /** The optional keys are looked up past the header. */
  lemma HeaderSkip(c: Config, tail: Query)
    ensures var q := Header(c) + tail;
      QueryItemValue(q, "uid") == QueryItemValue(tail, "uid") &&
      QueryItemValue(q, "uip") == QueryItemValue(tail, "uip") &&
      QueryItemValue(q, "an") == QueryItemValue(tail, "an") &&
      QueryItemValue(q, "av") == QueryItemValue(tail, "av")
  {
    var h := Header(c);
    assert h[0].0 == "v" && h[1].0 == "tid" && h[2].0 == "cid" && h[3].0 == "t";
    assert !HasKey(h, "uid") && !HasKey(h, "uip") && !HasKey(h, "an") && !HasKey(h, "av");
    QueryItemValueAppend(h, tail, "uid");
    QueryItemValueAppend(h, tail, "uip");
    QueryItemValueAppend(h, tail, "an");
    QueryItemValueAppend(h, tail, "av");
  }

  /** The optional items are ranked, carry non-empty values and hold the
      expected value for each optional key. */
  lemma OptionalItemsFacts(c: Config, appName: string, appVersion: string)
    ensures var tail := OptionalItems(c, appName, appVersion);
      Ranked(tail) && RanksFrom(tail, 4) && |tail| <= 4 &&
      (forall i :: 0 <= i < |tail| ==> tail[i].1 != "") &&
      QueryItemValue(tail, "uid") == NonEmpty(c.userID) &&
      QueryItemValue(tail, "uip") == NonEmpty(c.userIPAddress) &&
      QueryItemValue(tail, "an") == NonEmpty(Prefer(c.appName, appName)) &&
      QueryItemValue(tail, "av") == NonEmpty(Prefer(c.appVersion, appVersion))
  {
    var av := ItemIfSet("av", Prefer(c.appVersion, appVersion));
    var an := ItemIfSet("an", Prefer(c.appName, appName)) + av;
    var uip := ItemIfSet("uip", c.userIPAddress) + an;
    var uid := ItemIfSet("uid", c.userID) + uip;
    assert av + [] == av;
    PrependItem("av", Prefer(c.appVersion, appVersion), [], 8);
    PrependItem("an", Prefer(c.appName, appName), av, 7);
    PrependItem("uip", c.userIPAddress, an, 6);
    PrependItem("uid", c.userID, uip, 5);
    SkipItem("uid", c.userID, uip, "uip");
    SkipItem("uid", c.userID, uip, "an");
    SkipItem("uip", c.userIPAddress, an, "an");
    SkipItem("uid", c.userID, uip, "av");
    SkipItem("uip", c.userIPAddress, an, "av");
    SkipItem("an", Prefer(c.appName, appName), av, "av");
  }

  /** Prepending an optional item of lower rank keeps a query ranked, and the
      key of that item then looks up its value. */
  lemma PrependItem(key: string, value: string, rest: Query, lo: nat)
    requires KeyRank(key) < lo <= 8 && Ranked(rest) && RanksFrom(rest, lo)
    requires forall i :: 0 <= i < |rest| ==> rest[i].1 != ""
    ensures var q := ItemIfSet(key, value) + rest;
      Ranked(q) && RanksFrom(q, KeyRank(key)) && |q| <= |rest| + 1 &&
      (forall i :: 0 <= i < |q| ==> q[i].1 != "") &&
      QueryItemValue(q, key) == NonEmpty(value)
  {
    if value != "" {
      PrependRanked(key, value, rest, lo);
    } else {
      assert ItemIfSet(key, value) + rest == rest;
    }
    RanksFromLacks(rest, lo, key);
    QueryItemValueIsFirst(rest, key);
    QueryItemValueAppend(ItemIfSet(key, value), rest, key);
  }

  /** Prepending one item of lower rank keeps a query ranked. */
  lemma PrependRanked(key: string, value: string, rest: Query, lo: nat)
    requires KeyRank(key) < lo <= 8 && Ranked(rest) && RanksFrom(rest, lo)
    requires forall i :: 0 <= i < |rest| ==> rest[i].1 != ""
    requires value != ""
    ensures var q := [(key, value)] + rest;
      Ranked(q) && RanksFrom(q, KeyRank(key)) &&
      forall i :: 0 <= i < |q| ==> q[i].1 != ""
  {
  }

  /** Looking up a key other than that of a prepended optional item. */
  lemma SkipItem(key: string, value: string, rest: Query, other: string)
    requires other != key
    ensures QueryItemValue(ItemIfSet(key, value) + rest, other) == QueryItemValue(rest, other)
  {
    QueryItemValueAppend(ItemIfSet(key, value), rest, other);
  }

  /** A query whose keys all have rank at least `lo` lacks every key of lower rank. */
  lemma RanksFromLacks(q: Query, lo: nat, key: string)
    requires RanksFrom(q, lo) && KeyRank(key) < lo
    ensures !HasKey(q, key)
  {
  }
}
