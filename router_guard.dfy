/** The route guard of `components/router/ProtectedRoute`: the allowed roles
    arrive as one comma-separated string, which is split and trimmed, and the
    current user passes when any of the user's roles is in that list.  The
    toasts it raises on the way are left out.

    `String.prototype.split(",")` and `trim` are written out.  When a list of
    roles is given and the user object has no `roles` array, the source's
    `currentUser.roles.some` throws a TypeError while rendering; that is the
    `RenderError` outcome. */
module RouterGuard {
  import opened Common

  // ---- split(",") ----

  /** `split(",")`: the pieces between commas, so never an empty list; a
      string without a comma is a single piece. */
  function Split(s: String): (r: seq<String>)
    ensures |r| >= 1
    ensures forall i, k :: 0 <= i < |r| && 0 <= k < |r[i]| ==> r[i][k] != ','
  {
    if s == [] then [""]
    else
      var rest := Split(s[1..]);
      if s[0] == ',' then [""] + rest
      else [[s[0]] + rest[0]] + rest[1..]
  }

  /** The pieces joined back with commas. */
  function Join(parts: seq<String>): String
    requires |parts| >= 1
  {
    if |parts| == 1 then parts[0] else parts[0] + "," + Join(parts[1..])
  }

  /** Splitting loses nothing: joining the pieces gives back the string. */
  lemma {:induction false} JoinSplit(s: String)
    ensures Join(Split(s)) == s
  {
    if s != [] {
      JoinSplit(s[1..]);
      var rest := Split(s[1..]);
      if s[0] == ',' {
        assert ([""] + rest)[1..] == rest;
        assert s == "," + s[1..];
      } else {
        var r := [[s[0]] + rest[0]] + rest[1..];
        if |rest| == 1 {
          assert s == [s[0]] + s[1..];
        } else {
          assert r[1..] == rest[1..];
          assert Join(rest) == rest[0] + "," + Join(rest[1..]);
          assert s == [s[0]] + s[1..];
        }
      }
    }
  }

  /** Splitting a comma-free string yields just that string. */
  lemma {:induction false} SplitNoComma(s: String)
    requires forall k :: 0 <= k < |s| ==> s[k] != ','
    ensures Split(s) == [s]
  {
    if s != [] {
      SplitNoComma(s[1..]);
      assert [s[0]] + s[1..] == s;
    }
  }

  // ---- trim ----

  /** The characters `trim` removes: the white-space and line-terminator
      characters of ECMAScript. */
  predicate IsJsSpace(c: char) {
    var k := c as int;
    || (0x09 <= k <= 0x0D) || k == 0x20 || k == 0xA0 || k == 0x1680
    || (0x2000 <= k <= 0x200A) || k == 0x2028 || k == 0x2029 || k == 0x202F
    || k == 0x205F || k == 0x3000 || k == 0xFEFF
  }

  function TrimStart(s: String): (r: String)
    ensures |r| <= |s| && r == s[|s| - |r|..]
    ensures forall k :: 0 <= k < |s| - |r| ==> IsJsSpace(s[k])
    ensures r != [] ==> !IsJsSpace(r[0])
  {
    if s != [] && IsJsSpace(s[0]) then TrimStart(s[1..]) else s
  }

  function TrimEnd(s: String): (r: String)
    ensures |r| <= |s| && r == s[..|r|]
    ensures forall k :: |r| <= k < |s| ==> IsJsSpace(s[k])
    ensures r != [] ==> !IsJsSpace(r[|r| - 1])
  {
    if s != [] && IsJsSpace(s[|s| - 1]) then TrimEnd(s[..|s| - 1]) else s
  }

  /** `trim`: the infix left once the leading and the trailing spaces are cut
      away; it neither starts nor ends with a space. */
  function Trim(s: String): (r: String)
    ensures var lead := |s| - |TrimStart(s)|;
            && lead + |r| <= |s|
            && r == s[lead..lead + |r|]
            && (forall k :: 0 <= k < lead ==> IsJsSpace(s[k]))
            && (forall k :: lead + |r| <= k < |s| ==> IsJsSpace(s[k]))
    ensures r != [] ==> !IsJsSpace(r[0]) && !IsJsSpace(r[|r| - 1])
  {
    var t := TrimStart(s);
    var r := TrimEnd(t);
    TrimShape(s, t, r);
    r
  }

  /** Cutting t = TrimStart(s) down to r = TrimEnd(t) leaves an infix of s
      with only spaces around it. */
  lemma TrimShape(s: String, t: String, r: String)
    requires |t| <= |s| && t == s[|s| - |t|..]
    requires forall k :: 0 <= k < |s| - |t| ==> IsJsSpace(s[k])
    requires t != [] ==> !IsJsSpace(t[0])
    requires |r| <= |t| && r == t[..|r|]
    requires forall k :: |r| <= k < |t| ==> IsJsSpace(t[k])
    ensures var lead := |s| - |t|;
            && lead + |r| <= |s|
            && r == s[lead..lead + |r|]
            && (forall k :: lead + |r| <= k < |s| ==> IsJsSpace(s[k]))
    ensures r != [] ==> !IsJsSpace(r[0])
  {
    var lead := |s| - |t|;
    forall k | lead + |r| <= k < |s| ensures IsJsSpace(s[k]) {
      assert s[k] == t[k - lead];
    }
    if r != [] {
      assert r[0] == t[0];
    }
  }

  /** A string with no space at either end is its own trim. */
  lemma TrimFixes(s: String)
    requires s != [] ==> !IsJsSpace(s[0]) && !IsJsSpace(s[|s| - 1])
    ensures Trim(s) == s
  {
  }

  function TrimAll(parts: seq<String>): (r: seq<String>)
    ensures |r| == |parts|
    ensures forall i :: 0 <= i < |parts| ==> r[i] == Trim(parts[i])
  {
    if parts == [] then [] else [Trim(parts[0])] + TrimAll(parts[1..])
  }

  // ---- the guard ----

  /** `allowedRoles ? allowedRoles.split(',').map(trim) : []`: a missing or
      empty string gives no list. */
  function AllowedRoleList(allowedRoles: Option<String>): (r: seq<String>)
    ensures allowedRoles.None? || allowedRoles == Some("") ==> r == []
    ensures allowedRoles.Some? && allowedRoles.value != "" ==>
              |r| == |Split(allowedRoles.value)| >= 1
              && forall i :: 0 <= i < |r| ==> r[i] == Trim(Split(allowedRoles.value)[i])
  {
    if allowedRoles.None? || allowedRoles.value == "" then []
    else TrimAll(Split(allowedRoles.value))
  }

  datatype RouteUser = RouteUser(roles: Option<seq<String>>)

  datatype RouteView =
    | ToLogin      // <Navigate to="/login">
    | ToHome       // <Navigate to="/">
    | Outlet       // the child routes
    | RenderError  // TypeError: the user has no roles array

  /** Some role of the user is in the list. */
  predicate Overlaps(userRoles: seq<String>, allowed: seq<String>) {
    exists i :: 0 <= i < |userRoles| && userRoles[i] in allowed
  }

  /** The guard: login first, then the role list if it is non-empty. */
  function Route(currentUser: Option<RouteUser>, allowedRoles: Option<String>): (v: RouteView)
    ensures currentUser.None? ==> v == ToLogin
  {
    var roles := AllowedRoleList(allowedRoles);
    if currentUser.None? then ToLogin
    else if |roles| > 0 then
      if currentUser.value.roles.None? then RenderError
      else if !Overlaps(currentUser.value.roles.value, roles) then ToHome
      else Outlet
    else Outlet
  }

  /** Access is granted exactly to a present user when the role list is empty
      or shares a role with the user; a user who shares none is sent home. */
  lemma RouteGrantsIff(currentUser: Option<RouteUser>, allowedRoles: Option<String>)
    ensures var roles := AllowedRoleList(allowedRoles);
            Route(currentUser, allowedRoles) == Outlet <==>
              && currentUser.Some?
              && (roles == [] || (currentUser.value.roles.Some? && Overlaps(currentUser.value.roles.value, roles)))
    ensures var roles := AllowedRoleList(allowedRoles);
            (currentUser.Some? && roles != [] && currentUser.value.roles.Some? &&
             !Overlaps(currentUser.value.roles.value, roles)) ==> Route(currentUser, allowedRoles) == ToHome
    ensures Route(currentUser, allowedRoles) == RenderError <==>
              currentUser.Some? && AllowedRoleList(allowedRoles) != [] && currentUser.value.roles.None?
  {
  }

  /** Without a role string every logged-in user passes, whatever the user
      object holds. */
  lemma NoRolesAnyUser(user: RouteUser)
    ensures Route(Some(user), None) == Outlet && Route(Some(user), Some("")) == Outlet
  {
  }

  /** Spaces around the commas do not matter: " A , B " lists exactly the
      two names A and B (for instance "ROLE_ADMIN" and "ROLE_USER"). */
  lemma SpacedListParses(x: String, y: String)
    requires x != [] && y != []
    requires forall k :: 0 <= k < |x| ==> x[k] != ',' && !IsJsSpace(x[k])
    requires forall k :: 0 <= k < |y| ==> y[k] != ',' && !IsJsSpace(y[k])
    ensures AllowedRoleList(Some(" " + x + " , " + y + " ")) == [x, y]
  {
    var a := " " + x + " ";
    var b := " " + y + " ";
    var s := " " + x + " , " + y + " ";
    SpacedShape(x, y);
    PaddedWord(x);
    PaddedWord(y);
    ListOfTwo(s, a, b);
  }

  /** Two comma-free pieces around one comma list as their trims. */
  lemma ListOfTwo(s: String, a: String, b: String)
    requires s == a + "," + b
    requires forall k :: 0 <= k < |a| ==> a[k] != ','
    requires forall k :: 0 <= k < |b| ==> b[k] != ','
    ensures AllowedRoleList(Some(s)) == [Trim(a), Trim(b)]
  {
    SplitAround(a, b);
    assert s != [] by { assert s[|a|] == ','; }
    TrimAllPair(a, b);
  }

  /** The padded list is the two padded words around one comma. */
  lemma SpacedShape(x: String, y: String)
    ensures " " + x + " , " + y + " " == (" " + x + " ") + "," + (" " + y + " ")
  {
    assert " , " == " " + "," + " ";
  }

  /** A word between two spaces has no comma and trims to the word. */
  lemma PaddedWord(x: String)
    requires x != []
    requires forall k :: 0 <= k < |x| ==> x[k] != ',' && !IsJsSpace(x[k])
    ensures forall k :: 0 <= k < |" " + x + " "| ==> (" " + x + " ")[k] != ','
    ensures Trim(" " + x + " ") == x
  {
    var a := " " + x + " ";
    forall k | 0 <= k < |a| ensures a[k] != ',' {
      if 1 <= k <= |x| { assert a[k] == x[k - 1]; }
    }
    TrimExample(a, x);
  }

  lemma TrimAllPair(a: String, b: String)
    ensures TrimAll([a, b]) == [Trim(a), Trim(b)]
  {
    assert [a, b][1..] == [b];
  }

  /** Splitting at the one comma between two comma-free pieces. */
  lemma SplitAround(a: String, b: String)
    requires forall k :: 0 <= k < |a| ==> a[k] != ','
    requires forall k :: 0 <= k < |b| ==> b[k] != ','
    ensures Split(a + "," + b) == [a, b]
  {
    var t := "," + b;
    assert t[0] == ',' && t[1..] == b;
    SplitNoComma(b);
    assert Split(t) == [""] + [b];
    SplitConcat(a, t);
    assert a + "," + b == a + t;
    assert a + "" == a;
  }

  /** A comma-free prefix joins the first piece of what follows it. */
  lemma {:induction false} SplitConcat(a: String, rest: String)
    requires forall k :: 0 <= k < |a| ==> a[k] != ','
    ensures Split(a + rest) == [a + Split(rest)[0]] + Split(rest)[1..]
  {
    var r := Split(rest);
    if a == [] {
      assert a + rest == rest;
      assert a + r[0] == r[0];
      assert [r[0]] + r[1..] == r;
    } else {
      assert (a + rest)[0] == a[0];
      assert (a + rest)[1..] == a[1..] + rest;
      SplitConcat(a[1..], rest);
      assert [a[0]] + (a[1..] + r[0]) == a + r[0];
    }
  }

  /** Trimming one space off each end of a word. */
  lemma TrimExample(s: String, word: String)
    requires |word| >= 1 && s == " " + word + " "
    requires forall k :: 0 <= k < |word| ==> !IsJsSpace(word[k])
    ensures Trim(s) == word
  {
    assert s[0] == ' ' && s[1..] == word + " ";
    assert TrimStart(s) == word + " ";
    assert (word + " ")[..|word|] == word;
    assert TrimEnd(word + " ") == TrimEnd(word);
  }
}
