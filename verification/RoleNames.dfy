/** The role names a token may carry, letter by letter. */
module RoleNames {
  import opened Common
  import opened Roles

  /** White space by its code points. */
  lemma WhiteSpace(c: char)
    ensures IsSpace(c) <==>
      || c as int in {9, 10, 11, 12, 13, 32, 160, 5760, 8232, 8233, 8239, 8287, 12288, 65279}
      || 8192 <= c as int <= 8202
  {
  }

  /** The text is the name in some letter case, with white space around it. */
  ghost predicate Says(text: string, name: string) {
    exists before: string, word: string, after: string ::
      && text == before + word + after && Spells(word, name)
      && (forall c <- before :: IsSpace(c)) && (forall c <- after :: IsSpace(c))
  }

  lemma LowerParts(before: string, word: string, after: string)
    ensures ToLower(before + word + after) == ToLower(before) + ToLower(word) + ToLower(after)
  {
  }

  lemma LowerSpaces(s: string)
    requires forall c <- s :: IsSpace(c)
    ensures ToLower(s) == s
  {
    forall i | 0 <= i < |s|
      ensures ToLower(s)[i] == s[i]
    {
      assert s[i] in s;
    }
  }

  /** Trimming leaves the text between the white space at its ends. */
  lemma {:induction false} TrimStartSplits(s: string) returns (before: string)
    ensures s == before + TrimStart(s) && forall c <- before :: IsSpace(c)
  {
    if s != [] && IsSpace(s[0]) {
      var more := TrimStartSplits(s[1..]);
      before := [s[0]] + more;
      assert s == [s[0]] + s[1..];
    } else {
      before := "";
    }
  }

  lemma {:induction false} TrimEndSplits(s: string) returns (after: string)
    ensures s == TrimEnd(s) + after && forall c <- after :: IsSpace(c)
  {
    if s != [] && IsSpace(s[|s| - 1]) {
      var more := TrimEndSplits(s[..|s| - 1]);
      after := more + [s[|s| - 1]];
      assert s == s[..|s| - 1] + [s[|s| - 1]];
    } else {
      after := "";
    }
  }

  lemma SpaceOrNot(c: char)
    ensures IsSpace(LowerChar(c)) <==> IsSpace(c)
    ensures IsSpace(c) ==> LowerChar(c) == c
  {
  }

  /** A role string is normalised to a name exactly when it says that name. */
  lemma NormaliseSays(role: string, name: string)
    requires IsSmall(name) && name != ""
    ensures Normalise(role) == name <==> Says(role, name)
  {
    if Says(role, name) {
      var before, word, after :| role == before + word + after && Spells(word, name)
        && (forall c <- before :: IsSpace(c)) && (forall c <- after :: IsSpace(c));
      LowerParts(before, word, after);
      LowerSpaces(before);
      LowerSpaces(after);
      LowerSpells(word, name);
      assert name[0] in name && name[|name| - 1] in name;
      TrimStrips(before, name, after);
    }
    if Normalise(role) == name {
      NormalisedSays(role, name);
    }
  }

  lemma NormalisedSays(role: string, name: string)
    requires IsSmall(name) && Normalise(role) == name
    ensures Says(role, name)
  {
    var lower := ToLower(role);
    var a := TrimStartSplits(lower);
    var b := TrimEndSplits(TrimStart(lower));
    hide TrimStart, TrimEnd, IsSpace, LowerChar, Says, IsSmall, Spells;
    assert lower == a + name + b;
    var before, word, after := role[..|a|], role[|a|..|a| + |name|], role[|a| + |name|..];
    assert role == before + word + after;
    LowerParts(before, word, after);
    assert ToLower(before) == a && ToLower(word) == name && ToLower(after) == b;
    LowerSpells(word, name);
    SpacesOfLower(before);
    SpacesOfLower(after);
    assert Says(role, name) by { WordSays(before, word, after, name); }
  }

  lemma SpacesOfLower(s: string)
    requires forall c <- ToLower(s) :: IsSpace(c)
    ensures forall c <- s :: IsSpace(c)
  {
    forall i | 0 <= i < |s|
      ensures IsSpace(s[i])
    {
      assert ToLower(s)[i] in ToLower(s);
      SpaceOrNot(s[i]);
    }
  }

  lemma WordSays(before: string, word: string, after: string, name: string)
    requires Spells(word, name) && (forall c <- before :: IsSpace(c)) && (forall c <- after :: IsSpace(c))
    ensures Says(before + word + after, name)
  {
    hide IsSpace, Spells;
  }

  /** Somebody's roles include the name. */
  ghost predicate Holds(roles: seq<string>, name: string) {
    exists i :: 0 <= i < |roles| && Says(roles[i], name)
  }

  lemma HoldsIs(roles: seq<string>, name: string)
    requires IsSmall(name) && name != ""
    ensures name in NormaliseAll(roles) <==> Holds(roles, name)
  {
    hide Normalise, Says;
    if name in NormaliseAll(roles) {
      var i :| 0 <= i < |roles| && NormaliseAll(roles)[i] == name;
      NormaliseSays(roles[i], name);
    }
    if Holds(roles, name) {
      var i :| 0 <= i < |roles| && Says(roles[i], name);
      NormaliseSays(roles[i], name);
      assert NormaliseAll(roles)[i] == name;
    }
  }

  lemma AdminNames(roles: seq<string>)
    ensures "super_admin" in NormaliseAll(roles) <==> Holds(roles, "super_admin")
    ensures "superadmin" in NormaliseAll(roles) <==> Holds(roles, "superadmin")
    ensures "admin" in NormaliseAll(roles) <==> Holds(roles, "admin")
  {
    hide NormaliseAll, Holds;
    HoldsIs(roles, "super_admin");
    HoldsIs(roles, "superadmin");
    HoldsIs(roles, "admin");
  }

  lemma AgentNames(roles: seq<string>)
    ensures "sales_agent" in NormaliseAll(roles) <==> Holds(roles, "sales_agent")
    ensures "sales" in NormaliseAll(roles) <==> Holds(roles, "sales")
    ensures "support_agent" in NormaliseAll(roles) <==> Holds(roles, "support_agent")
    ensures "support" in NormaliseAll(roles) <==> Holds(roles, "support")
  {
    hide NormaliseAll, Holds;
    HoldsIs(roles, "sales_agent");
    HoldsIs(roles, "sales");
    HoldsIs(roles, "support_agent");
    HoldsIs(roles, "support");
  }

  lemma HrNames(roles: seq<string>)
    ensures "hr_agent" in NormaliseAll(roles) <==> Holds(roles, "hr_agent")
    ensures "hr" in NormaliseAll(roles) <==> Holds(roles, "hr")
    ensures "agent" in NormaliseAll(roles) <==> Holds(roles, "agent")
  {
    hide NormaliseAll, Holds;
    HoldsIs(roles, "hr_agent");
    HoldsIs(roles, "hr");
    HoldsIs(roles, "agent");
  }

  lemma OtherNames(roles: seq<string>)
    ensures "employee" in NormaliseAll(roles) <==> Holds(roles, "employee")
    ensures "worker" in NormaliseAll(roles) <==> Holds(roles, "worker")
    ensures "staff" in NormaliseAll(roles) <==> Holds(roles, "staff")
    ensures "client" in NormaliseAll(roles) <==> Holds(roles, "client")
  {
    hide NormaliseAll, Holds;
    HoldsIs(roles, "employee");
    HoldsIs(roles, "worker");
    HoldsIs(roles, "staff");
    HoldsIs(roles, "client");
  }

  /** The primary role by the names held: the first of these lines that applies. */
  lemma PrimaryRoleIs(roles: seq<string>)
    ensures GetUserPrimaryRole(roles) ==
      if Holds(roles, "super_admin") || Holds(roles, "superadmin") then SuperAdmin
      else if Holds(roles, "admin") then Admin
      else if Holds(roles, "sales_agent") || Holds(roles, "sales") then SalesAgent
      else if Holds(roles, "support_agent") || Holds(roles, "support") then SupportAgent
      else if Holds(roles, "hr_agent") || Holds(roles, "hr") then HrAgent
      else if Holds(roles, "agent") then Agent
      else if Holds(roles, "employee") || Holds(roles, "worker") || Holds(roles, "staff") then Employee
      else if Holds(roles, "client") then Client
      else Employee
  {
    AdminNames(roles);
    AgentNames(roles);
    HrNames(roles);
    OtherNames(roles);
    hide NormaliseAll;
    hide Holds;
  }

  /** For one, padding and capitals do not matter: " ADMIN " is an admin. */
  lemma PaddedAdmin(before: string, word: string, after: string)
    requires Spells(word, "admin") && (forall c <- before :: IsSpace(c)) && (forall c <- after :: IsSpace(c))
    ensures GetUserPrimaryRole([before + word + after]) == Admin
    ensures Spells("ADMIN", "admin") && IsSpace(' ')
  {
    var role := before + word + after;
    WordSays(before, word, after, "admin");
    NormaliseSays(role, "admin");
    hide Normalise, Says, IsSpace;
    assert NormaliseAll([role]) == ["admin"];
  }
}
