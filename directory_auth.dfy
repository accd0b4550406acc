/**
 * The directory login decision of cloudflare_automation/core/auth.py: after a
 * successful bind, the group names are pulled out of the user's `memberOf`
 * distinguished names with the pattern `CN=([A-Z|a-z|_|-]{1,})`, and access is
 * granted iff one of the permitted groups is among them.
 *
 * The LDAP server is abstract: the outcome of bind and search is an input.
 */
module DirectoryAuth {
  import opened Wrappers
  import opened PyStr

  /** The character class `[A-Z|a-z|_|-]`: ASCII letters and the literal `|`, `_` and `-`. */
  function IsGroupChar(c: char): (b: bool)
    ensures b ==> c != ',' && c != '=' && !('0' <= c <= '9')
    ensures c == '|' ==> b
  {
    ('A' <= c <= 'Z') || c == '|' || ('a' <= c <= 'z') || c == '_' || c == '-'
  }

  /** The pattern matches at `p`: `CN=` followed by at least one group character. */
  function MatchAt(dn: string, p: int): (b: bool)
    ensures b ==> 0 <= p && p + 3 < |dn| && dn[p..p + 3] == "CN="
    ensures 0 <= p && p + 3 <= |dn| && dn[p..p + 3] == "CN=" ==> (b <==> RunEnd(dn, p + 3) > p + 3)
  {
    0 <= p && p + 3 < |dn| && dn[p] == 'C' && dn[p + 1] == 'N' && dn[p + 2] == '=' && IsGroupChar(dn[p + 3])
  }

  /** Where the greedy run of group characters starting at `i` ends. */
  function RunEnd(s: string, i: nat): (e: nat)
    requires i <= |s|
    ensures i <= e <= |s|
    ensures forall k :: i <= k < e ==> IsGroupChar(s[k])
    ensures e == |s| || !IsGroupChar(s[e])
    decreases |s| - i
  {
    if i < |s| && IsGroupChar(s[i]) then RunEnd(s, i + 1) else i
  }

  /** The leftmost position at or after `p` where the pattern matches. */
  function FirstMatch(dn: string, p: nat): (r: Option<nat>)
    ensures r.Some? ==> p <= r.value && MatchAt(dn, r.value)
    ensures r.Some? ==> forall q :: p <= q < r.value ==> !MatchAt(dn, q)
    ensures r.None? ==> forall q :: p <= q ==> !MatchAt(dn, q)
    decreases |dn| - p
  {
    if p + 3 >= |dn| then None
    else if MatchAt(dn, p) then Some(p)
    else FirstMatch(dn, p + 1)
  }

  /**
   * `re.search(...).group(1)` on one distinguished name: the maximal run of
   * group characters after the leftmost `CN=` that is followed by one.
   */
  function ExtractGroup(dn: string): (g: Option<string>)
    ensures g.Some? ==> |g.value| > 0 && forall i :: 0 <= i < |g.value| ==> IsGroupChar(g.value[i])
  {
    match FirstMatch(dn, 0)
    case None => None
    case Some(p) => Some(dn[p + 3..RunEnd(dn, p + 3)])
  }

  /**
   * There is a group exactly when the pattern matches somewhere, and then it
   * is the greedy run after the leftmost match.
   */
  lemma ExtractGroupIsLeftmostMatch(dn: string)
    ensures ExtractGroup(dn).None? <==> forall p :: !MatchAt(dn, p)
    ensures ExtractGroup(dn).Some? ==>
      exists p :: && MatchAt(dn, p)
                  && (forall q :: 0 <= q < p ==> !MatchAt(dn, q))
                  && ExtractGroup(dn).value == dn[p + 3..RunEnd(dn, p + 3)]
  {
    var m := FirstMatch(dn, 0);
    if m.Some? {
      assert MatchAt(dn, m.value);
    }
  }

  /** A digit ends a group name: `CN=Group1,...` yields `Group`. */
  lemma DigitEndsGroupName()
    ensures ExtractGroup("CN=Group1,DC=corp") == Some("Group")
  {
    var dn := "CN=Group1,DC=corp";
    assert MatchAt(dn, 0);
    assert RunEnd(dn, 3) == 8;
    assert dn[3..8] == "Group";
  }

  /**
   * A `CN=` not followed by a group character is passed over, and `|` is
   * taken literally as part of a name.
   */
  lemma PipeIsAGroupCharacter()
    ensures ExtractGroup("CN=1,CN=a|b") == Some("a|b")
  {
    var dn := "CN=1,CN=a|b";
    assert FirstMatch(dn, 5) == Some(5);
    assert !MatchAt(dn, 4) && !MatchAt(dn, 3) && !MatchAt(dn, 2) && !MatchAt(dn, 1) && !MatchAt(dn, 0);
    assert FirstMatch(dn, 0) == Some(5);
    assert RunEnd(dn, 8) == 11;
    assert dn[8..11] == "a|b";
  }

  /** A name without `CN=` yields no group. */
  lemma NoCommonNameNoGroup()
    ensures ExtractGroup("OU=Ops") == None
  {
  }

  /** The `member_of` list: the groups of the names that match, in order. */
  function ExtractAll(dns: seq<string>): (groups: seq<string>)
    ensures |groups| <= |dns|
    ensures forall i :: 0 <= i < |groups| ==> |groups[i]| > 0
  {
    if dns == [] then []
    else
      ExtractAll(dns[..|dns| - 1]) +
        match ExtractGroup(dns[|dns| - 1]) case Some(g) => [g] case None => []
  }

  /** A name is in `member_of` exactly when some distinguished name yields it. */
  lemma {:induction false} ExtractAllMembers(dns: seq<string>, g: string)
    ensures g in ExtractAll(dns) <==> exists i :: 0 <= i < |dns| && ExtractGroup(dns[i]) == Some(g)
  {
    if dns != [] {
      var n := |dns| - 1;
      var pre := dns[..n];
      var last: seq<string> := match ExtractGroup(dns[n]) case Some(h) => [h] case None => [];
      assert ExtractAll(dns) == ExtractAll(pre) + last;
      ExtractAllMembers(pre, g);
      if g in ExtractAll(pre) {
        var i :| 0 <= i < n && ExtractGroup(pre[i]) == Some(g);
        assert pre[i] == dns[i];
      } else if g in last {
        assert ExtractGroup(dns[n]) == Some(g);
      } else {
        assert g !in ExtractAll(dns);
        forall i | 0 <= i < |dns|
          ensures ExtractGroup(dns[i]) != Some(g)
        {
          if i < n {
            assert pre[i] == dns[i];
          }
        }
      }
    }
  }

  /** Some permitted group is, exactly and case-sensitively, one of the user's groups. */
  function Granted(permitted: seq<string>, groups: seq<string>): (b: bool)
    ensures b <==> exists j :: 0 <= j < |groups| && groups[j] in permitted
  {
    exists i :: 0 <= i < |permitted| && permitted[i] in groups
  }

  /** `GROUPS_PERMITED`: the environment value split on commas. */
  function PermittedGroups(env: string): (groups: seq<string>)
    ensures |groups| == Count(env, ',') + 1
  {
    Split(env, ',')
  }

  /** An empty permitted entry never matches: an extracted group is never empty. */
  lemma EmptyEntryNeverGrants(permitted: seq<string>, dns: seq<string>)
    ensures Granted(permitted, ExtractAll(dns)) <==>
      exists i :: 0 <= i < |permitted| && permitted[i] != "" && permitted[i] in ExtractAll(dns)
  {
  }

  /** A setting made only of commas (or empty) lets nobody in. */
  lemma OnlyCommasGrantNobody(env: string, dns: seq<string>)
    requires forall i :: 0 <= i < |env| ==> env[i] == ','
    ensures !Granted(PermittedGroups(env), ExtractAll(dns))
  {
    SplitOnlySeparators(env, ',');
    EmptyEntryNeverGrants(PermittedGroups(env), dns);
  }

  /** One entry of the search response: the `memberOf` and `displayName` attributes, if present. */
  datatype DirectoryEntry = DirectoryEntry(memberOf: Option<seq<string>>, displayName: Option<string>)

  /**
   * How the directory answered: an exception while connecting, binding or
   * searching; a refused bind; or a bind followed by a search response.
   */
  datatype LdapOutcome = LdapRaised | BindRejected | Bound(response: seq<DirectoryEntry>)

  /**
   * `authenticate_user`: true exactly when the bind succeeded, the first
   * search entry has both attributes it reads, and a permitted group is among
   * the groups extracted from `memberOf`. Every exception, including a missing
   * entry or attribute, yields false.
   */
  method AuthenticateUser(ldap: LdapOutcome, permitted: seq<string>) returns (ok: bool)
    ensures ok <==>
      && ldap.Bound? && |ldap.response| > 0
      && ldap.response[0].memberOf.Some? && ldap.response[0].displayName.Some?
      && Granted(permitted, ExtractAll(ldap.response[0].memberOf.value))
  {
    match ldap {
      case LdapRaised =>
        return false;
      case BindRejected =>
        return false;
      case Bound(response) =>
        if |response| == 0 {
          return false;
        }
        var entry := response[0];
        if entry.memberOf.None? {
          return false;
        }
        var dns := entry.memberOf.value;
        var memberOf: seq<string> := [];
        for i := 0 to |dns|
          invariant memberOf == ExtractAll(dns[..i])
        {
          assert dns[..i + 1][..i] == dns[..i];
          var group := ExtractGroup(dns[i]);
          if group.Some? {
            memberOf := memberOf + [group.value];
          }
        }
        assert dns[..|dns|] == dns;
        if entry.displayName.None? {
          return false;
        }
        for i := 0 to |permitted|
          invariant forall j :: 0 <= j < i ==> permitted[j] !in memberOf
        {
          if permitted[i] in memberOf {
            return true;
          }
        }
        return false;
    }
  }
}
