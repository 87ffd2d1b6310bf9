/** The LDAP group condition of the user group DAO: the quoted DNs of the
    LDAP groups of a list, joined by commas, for use in an SQL `in (...)`
    clause. Only its observable contract is modelled. */
module UserGroup {
  import opened Text

  datatype UserGroup = UserGroup(groupName: string, groupType: int, ldapGroupDn: string)

  /** The group type of LDAP groups. */
  const LdapGroupType: int := 1

  /** The LDAP groups of a list, in list order. */
  function LdapGroups(groups: seq<UserGroup>): (r: seq<UserGroup>)
    ensures forall g :: g in r <==> g in groups && g.groupType == LdapGroupType
    ensures |r| <= |groups|
  {
    if groups == [] then []
    else (if groups[0].groupType == LdapGroupType then [groups[0]] else []) + LdapGroups(groups[1..])
  }

  function Quote(dn: string): (q: string)
    ensures |q| == |dn| + 2 && q[0] == '\'' && q[|q| - 1] == '\'' && q[1..|q| - 1] == dn
  {
    "'" + dn + "'"
  }

  /** The quoted DN of each LDAP group, in list order. */
  function QuotedDns(groups: seq<UserGroup>): (r: seq<string>)
    ensures var ldap := LdapGroups(groups);
            |r| == |ldap| && forall i :: 0 <= i < |ldap| ==> r[i] == Quote(ldap[i].ldapGroupDn)
  {
    var ldap := LdapGroups(groups);
    seq(|ldap|, i requires 0 <= i < |ldap| => Quote(ldap[i].ldapGroupDn))
  }

  /** The quoted DNs of the LDAP groups, joined by commas. */
  function GetGroupDnQueryCondition(groups: seq<UserGroup>): string {
    Join(QuotedDns(groups), ",")
  }

  /** Selecting the LDAP groups keeps the list order: it distributes over
      concatenation. */
  lemma {:induction false} LdapGroupsOfAppend(a: seq<UserGroup>, b: seq<UserGroup>)
    ensures LdapGroups(a + b) == LdapGroups(a) + LdapGroups(b)
  {
    if a == [] {
      assert a + b == b;
    } else {
      assert (a + b)[1..] == a[1..] + b;
      LdapGroupsOfAppend(a[1..], b);
    }
  }

  /** Quoting follows the group selection, so it too distributes over
      concatenation. */
  lemma QuotedDnsOfAppend(a: seq<UserGroup>, b: seq<UserGroup>)
    ensures QuotedDns(a + b) == QuotedDns(a) + QuotedDns(b)
  {
    LdapGroupsOfAppend(a, b);
    var l := QuotedDns(a + b);
    var r := QuotedDns(a) + QuotedDns(b);
    assert |l| == |r|;
    forall i | 0 <= i < |l| ensures l[i] == r[i] {
      if i < |QuotedDns(a)| {
        assert LdapGroups(a + b)[i] == LdapGroups(a)[i];
      } else {
        assert LdapGroups(a + b)[i] == LdapGroups(b)[i - |QuotedDns(a)|];
      }
    }
  }

  /** Joining two non-empty lists of parts puts one separator between
      their joins. */
  lemma {:induction false} JoinOfAppend(a: seq<string>, b: seq<string>, sep: string)
    requires |a| > 0 && |b| > 0
    ensures Join(a + b, sep) == Join(a, sep) + sep + Join(b, sep)
  {
    if |a| == 1 {
      assert (a + b)[0] == a[0] && (a + b)[1..] == b;
    } else {
      assert (a + b)[0] == a[0] && (a + b)[1..] == a[1..] + b;
      JoinOfAppend(a[1..], b, sep);
    }
  }

  /** The condition of two lists that each hold an LDAP group is their
      conditions joined by a comma. */
  lemma ConditionOfAppend(a: seq<UserGroup>, b: seq<UserGroup>)
    requires LdapGroups(a) != [] && LdapGroups(b) != []
    ensures GetGroupDnQueryCondition(a + b)
            == GetGroupDnQueryCondition(a) + "," + GetGroupDnQueryCondition(b)
  {
    QuotedDnsOfAppend(a, b);
    JoinOfAppend(QuotedDns(a), QuotedDns(b), ",");
  }

  lemma {:induction false} JoinOfNonEmptyParts(parts: seq<string>, sep: string)
    requires |parts| > 0 && |parts[0]| > 0
    ensures |Join(parts, sep)| > 0
  {
  }

  /** The condition is empty exactly when the list holds no LDAP group, so
      a nil or empty list gives "". */
  lemma EmptyConditionIffNoLdapGroup(groups: seq<UserGroup>)
    ensures GetGroupDnQueryCondition(groups) == "" <==>
            forall g :: g in groups ==> g.groupType != LdapGroupType
  {
    var parts := QuotedDns(groups);
    if |parts| > 0 {
      JoinOfNonEmptyParts(parts, ",");
      assert LdapGroups(groups)[0] in LdapGroups(groups);
    }
  }

  /** Two quoted DNs joined by a comma. */
  lemma QuotePair(x: string, y: string)
    ensures Quote(x) + "," + Quote(y) == "'" + x + "','" + y + "'"
  {
    assert "'" + "," + "'" == "','";
  }

  /** The groups of the DAO's own test: two LDAP groups and a third of
      another type. */
  lemma SampleCondition()
    ensures GetGroupDnQueryCondition([
              UserGroup("sample1", 1, "cn=sample1_users,ou=groups,dc=example,dc=com"),
              UserGroup("sample2", 1, "cn=sample2_users,ou=groups,dc=example,dc=com"),
              UserGroup("sample3", 0, "cn=sample3_users,ou=groups,dc=example,dc=com")])
            == "'" + "cn=sample1_users,ou=groups,dc=example,dc=com" + "','"
               + "cn=sample2_users,ou=groups,dc=example,dc=com" + "'"
    ensures GetGroupDnQueryCondition([]) == ""
  {
    var g1 := UserGroup("sample1", 1, "cn=sample1_users,ou=groups,dc=example,dc=com");
    var g2 := UserGroup("sample2", 1, "cn=sample2_users,ou=groups,dc=example,dc=com");
    var g3 := UserGroup("sample3", 0, "cn=sample3_users,ou=groups,dc=example,dc=com");
    var a, b := [g1], [g2, g3];
    assert LdapGroups(a) == [g1];
    assert QuotedDns(a) == [Quote(g1.ldapGroupDn)];
    assert GetGroupDnQueryCondition(a) == Quote(g1.ldapGroupDn);
    LdapGroupsOfAppend([g2], [g3]);
    assert b == [g2] + [g3];
    assert LdapGroups([g3]) == [];
    assert LdapGroups(b) == [g2];
    assert QuotedDns(b) == [Quote(g2.ldapGroupDn)];
    assert GetGroupDnQueryCondition(b) == Quote(g2.ldapGroupDn);
    ConditionOfAppend(a, b);
    assert [g1, g2, g3] == a + b;
    QuotePair(g1.ldapGroupDn, g2.ldapGroupDn);
  }
}
