/**
 Which bucket a request falls into: the category of a request, the limits of the three deployment
 profiles, and the bucket key.
 */
module RateLimits {
  datatype Limit = Limit(max: nat, window: real)
  datatype Profile = Development | Stress | Production

  const CATEGORIES: set<string> :=
    {"auth", "export", "report", "write", "default", "anonymous", "room_qr_public", "coordination"}

  /** The table of a profile; an unknown category has the default limit. */
  function LimitOf(profile: Profile, category: string): (limit: Limit)
    ensures limit.window == 60.0 && limit.max > 0
  {
    var max :=
      match profile
      case Development => 10000
      case Stress =>
        if category == "auth" then 15 else if category == "anonymous" then 60
        else if category == "room_qr_public" then 120 else 10000
      case Production =>
        if category == "auth" then 15 else if category == "export" then 10
        else if category == "report" || category == "anonymous" then 60
        else if category == "write" || category == "room_qr_public" then 120
        else if category == "coordination" then 600 else 300;
    Limit(max, 60.0)
  }

  predicate StartsWith(s: string, prefix: string) {
    prefix <= s
  }

  predicate EndsWith(s: string, suffix: string) {
    |suffix| <= |s| && s[|s| - |suffix|..] == suffix
  }

  predicate Contains(s: string, part: string) {
    |part| <= |s| && (part <= s || Contains(s[1..], part))
  }

  const CATEGORY_MAP: seq<(string, string)> := [
    ("/api/auth/login", "auth"), ("/api/auth/register", "auth"), ("/api/export", "export"),
    ("/api/reports", "report"), ("/api/dashboard", "report"), ("/api/executive", "report")]

  /** The category of the first matching prefix, or the empty string. */
  function Mapped(path: string, table: seq<(string, string)>): string {
    if table == [] then ""
    else if StartsWith(path, table[0].0) then table[0].1
    else Mapped(path, table[1..])
  }

  predicate PublicRoomQr(path: string) {
    StartsWith(path, "/api/public/room-qr/") && (EndsWith(path, "/session") || EndsWith(path, "/submit"))
  }

  function GetCategory(path: string, verb: string, hasToken: bool): string {
    if PublicRoomQr(path) then "room_qr_public"
    else if Mapped(path, CATEGORY_MAP) != "" then Mapped(path, CATEGORY_MAP)
    else if !hasToken then "anonymous"
    else if Contains(path, "/api/pms/reservations/") && Contains(path, "/edit-lock") then "coordination"
    else if verb in {"POST", "PUT", "PATCH", "DELETE"} then "write"
    else "default"
  }

  /** Every category has a row in the tables and can be told from the identifier in a key. */
  lemma CategoryIsKnown(path: string, verb: string, hasToken: bool)
    ensures GetCategory(path, verb, hasToken) in CATEGORIES && ':' !in GetCategory(path, verb, hasToken)
  {
    MappedIsKnown(path);
  }

  lemma MappedIsKnown(path: string)
    ensures Mapped(path, CATEGORY_MAP) in {"", "auth", "export", "report"}
  {
    MappedIsListed(path, CATEGORY_MAP);
  }

  lemma {:induction false} MappedIsListed(path: string, table: seq<(string, string)>)
    ensures Mapped(path, table) == "" || exists i :: 0 <= i < |table| && table[i].1 == Mapped(path, table)
  {
    if table != [] && !StartsWith(path, table[0].0) {
      MappedIsListed(path, table[1..]);
      if i :| 0 <= i < |table| - 1 && table[1..][i].1 == Mapped(path, table[1..]) {
        assert table[i + 1].1 == Mapped(path, table);
      }
    }
  }

  /**
   Without a credential the method never decides: no such request gets the write, default or coordination
   budget. Outside development it is held to 120 a minute, exactly unless the stress profile is on and
   its path is an export or a report.
   */
  lemma AnonymousIsThrottled(profile: Profile, path: string, verb: string)
    ensures GetCategory(path, verb, false) !in {"write", "default", "coordination"}
    ensures var category := GetCategory(path, verb, false);
            LimitOf(profile, category).max > 120 <==>
            profile == Development || (profile == Stress && (category == "export" || category == "report"))
  {
    MappedIsKnown(path);
  }

  // ---------- budgets ----------

  /** A request as the middleware sees it; the identifier names the user or the address. */
  datatype Request = Request(identifier: string, path: string, verb: string, hasToken: bool)

  datatype Budget = RoomQr | Login | Export | Report | Anonymous | EditLock | Write | Other

  /** What each identifier may spend of a budget in a minute. */
  function PerMinute(profile: Profile, budget: Budget): nat {
    if profile == Development then 10000
    else if budget == Login then 15
    else if budget == Anonymous then 60
    else if budget == RoomQr then 120
    else if profile == Stress then 10000
    else if budget == Export then 10
    else if budget == Report then 60
    else if budget == Write then 120
    else if budget == EditLock then 600
    else 300
  }

  ghost predicate Ends(path: string, suffix: string) {
    exists front: string :: path == front + suffix
  }

  ghost predicate Holds(path: string, part: string) {
    exists front: string, back: string :: path == front + part + back
  }

  ghost predicate ForRoomQr(path: string) {
    "/api/public/room-qr/" <= path && (Ends(path, "/session") || Ends(path, "/submit"))
  }

  predicate ForLogin(path: string) {
    "/api/auth/login" <= path || "/api/auth/register" <= path
  }

  predicate ForReport(path: string) {
    "/api/reports" <= path || "/api/dashboard" <= path || "/api/executive" <= path
  }

  ghost predicate ForEditLock(path: string) {
    Holds(path, "/api/pms/reservations/") && Holds(path, "/edit-lock")
  }

  /** Paths whose budget does not depend on who asks. */
  ghost predicate Named(path: string) {
    ForRoomQr(path) || ForLogin(path) || "/api/export" <= path || ForReport(path)
  }

  /** Which requests are charged to a budget. */
  ghost predicate Draws(r: Request, budget: Budget) {
    match budget
    case RoomQr => ForRoomQr(r.path)
    case Login => ForLogin(r.path)
    case Export => "/api/export" <= r.path
    case Report => ForReport(r.path)
    case Anonymous => !Named(r.path) && !r.hasToken
    case EditLock => !Named(r.path) && r.hasToken && ForEditLock(r.path)
    case Write => !Named(r.path) && r.hasToken && !ForEditLock(r.path) && r.verb in {"POST", "PUT", "PATCH", "DELETE"}
    case Other => !Named(r.path) && r.hasToken && !ForEditLock(r.path) && r.verb !in {"POST", "PUT", "PATCH", "DELETE"}
  }

  /** The category a budget is kept under. */
  function Name(budget: Budget): (name: string)
    ensures ':' !in name
  {
    match budget
    case RoomQr => "room_qr_public"
    case Login => "auth"
    case Export => "export"
    case Report => "report"
    case Anonymous => "anonymous"
    case EditLock => "coordination"
    case Write => "write"
    case Other => "default"
  }

  lemma EndsIffSuffix(path: string, suffix: string)
    ensures EndsWith(path, suffix) <==> Ends(path, suffix)
  {
    if EndsWith(path, suffix) {
      assert path == path[..|path| - |suffix|] + suffix;
    }
  }

  lemma PrefixIsFront(front: string, part: string, back: string)
    ensures front == "" ==> part <= front + part + back
  {
    if front == "" {
      assert front + part + back == part + back;
    }
  }

  lemma {:induction false} HoldsIffContains(path: string, part: string)
    ensures Contains(path, part) <==> Holds(path, part)
    decreases |path|
  {
    if part <= path {
      assert path == "" + part + path[|part|..];
    } else if |part| <= |path| {
      HoldsIffContains(path[1..], part);
      if Holds(path[1..], part) {
        var front: string, back: string :| path[1..] == front + part + back;
        assert path == ([path[0]] + front) + part + back;
      }
      if Holds(path, part) {
        var front: string, back: string :| path == front + part + back;
        PrefixIsFront(front, part, back);
        assert path[1..] == front[1..] + part + back;
      }
    }
  }

  /** The map's prefixes exclude each other, so its order does not matter. */
  lemma MappedInWords(path: string)
    ensures Mapped(path, CATEGORY_MAP) ==
            if ForLogin(path) then "auth" else if "/api/export" <= path then "export" else if ForReport(path) then "report" else ""
  {
    var t := CATEGORY_MAP;
    assert t[0].0 == "/api/auth/login" && t[1].0 == "/api/auth/register" && t[2].0 == "/api/export";
    assert t[3].0 == "/api/reports" && t[4].0 == "/api/dashboard" && t[5].0 == "/api/executive";
    MappedFrom(path, 0);
    MappedFrom(path, 1);
    MappedFrom(path, 2);
    MappedFrom(path, 3);
    MappedFrom(path, 4);
    MappedFrom(path, 5);
    PrefixesApart(path);
    hide Mapped, StartsWith;
  }

  lemma MappedFrom(path: string, i: nat)
    requires i < |CATEGORY_MAP|
    ensures var row := CATEGORY_MAP[i];
            Mapped(path, CATEGORY_MAP[i..]) == if row.0 <= path then row.1 else Mapped(path, CATEGORY_MAP[i + 1..])
    ensures Mapped(path, CATEGORY_MAP[|CATEGORY_MAP|..]) == ""
    ensures CATEGORY_MAP[0..] == CATEGORY_MAP
  {
    assert CATEGORY_MAP[i..][1..] == CATEGORY_MAP[i + 1..];
  }

  lemma PrefixesApart(path: string)
    ensures ("/api/public/room-qr/" <= path ==> !ForLogin(path) && !("/api/export" <= path) && !ForReport(path))
    ensures (ForLogin(path) ==> !("/api/export" <= path) && !ForReport(path))
    ensures ("/api/export" <= path ==> !ForReport(path))
  {
    assert "/api/public/room-qr/" <= path ==> path[5] == 'p';
    assert ForLogin(path) ==> path[5] == 'a';
    assert "/api/export" <= path ==> path[5] == 'e' && path[7] == 'p';
    assert "/api/executive" <= path ==> path[5] == 'e' && path[7] == 'e';
    assert "/api/reports" <= path ==> path[5] == 'r';
    assert "/api/dashboard" <= path ==> path[5] == 'd';
  }

  /** The category of a request is the name of the budget it draws on. */
  lemma CategoryIsBudget(r: Request, budget: Budget)
    ensures Draws(r, budget) <==> GetCategory(r.path, r.verb, r.hasToken) == Name(budget)
  {
    EndsIffSuffix(r.path, "/session");
    EndsIffSuffix(r.path, "/submit");
    HoldsIffContains(r.path, "/api/pms/reservations/");
    HoldsIffContains(r.path, "/edit-lock");
    MappedInWords(r.path);
    PrefixesApart(r.path);
    hide Mapped, Contains, Holds, Ends, EndsWith;
  }

  /** The table of the profile holds the budget's limit. */
  lemma LimitIsBudget(profile: Profile, budget: Budget)
    ensures LimitOf(profile, Name(budget)) == Limit(PerMinute(profile, budget), 60.0)
  {
  }

  /** Every request draws on exactly one budget. */
  lemma OneBudget(r: Request) returns (budget: Budget)
    ensures forall b :: Draws(r, b) <==> b == budget
  {
    PrefixesApart(r.path);
    hide Holds, Ends;
    budget :| Draws(r, budget);
  }

  // ---------- bucket keys ----------

  function KeyOf(identifier: string, category: string): string {
    identifier + ":" + category
  }

  function CategoryOf(key: string): string {
    if key == "" || key[|key| - 1] == ':' then "" else CategoryOf(key[..|key| - 1]) + [key[|key| - 1]]
  }

  lemma {:induction false} CategoryOfKey(identifier: string, category: string)
    requires ':' !in category
    ensures CategoryOf(KeyOf(identifier, category)) == category
    decreases |category|
  {
    var key := KeyOf(identifier, category);
    if category != "" {
      var n := |category| - 1;
      assert category == category[..n] + [category[n]];
      assert key[..|key| - 1] == KeyOf(identifier, category[..n]);
      CategoryOfKey(identifier, category[..n]);
    }
  }

  /** Two requests share a bucket exactly when they have the same identifier and category. */
  lemma KeysDiffer(a: string, c: string, b: string, d: string)
    requires ':' !in c && ':' !in d
    ensures KeyOf(a, c) == KeyOf(b, d) <==> a == b && c == d
  {
    CategoryOfKey(a, c);
    CategoryOfKey(b, d);
    var key := KeyOf(a, c);
    assert key[..|key| - |c| - 1] == a;
    if key == KeyOf(b, d) {
      assert key[..|key| - |d| - 1] == b;
    }
  }
}
