/** The users table (frontend/src/components/UserTable.jsx): a list of users
    held in component state, an "add user" form that appends to it, and the
    rules that colour a role and draw a rating. */
module UserTable {
  import opened Common

  datatype TableUser = TableUser(
    id: int,
    name: string,
    role: string,
    status: string,
    profilePic: string,
    social: string,
    promoted: bool,
    rating: nat,
    lastLogin: string)

  const AVATAR_BASE := "https://i.pravatar.cc/40?img="

  const INITIAL_USERS: seq<TableUser> := [
    TableUser(1, "Jese Leos", "Administrator", "Active", AVATAR_BASE + "1", "https://twitter.com", false, 4, "2025-03-10 12:45 PM"),
    TableUser(2, "Bonnie Green", "Viewer", "Active", AVATAR_BASE + "2", "https://facebook.com", true, 5, "2025-03-11 03:20 PM"),
    TableUser(3, "Leslie Livingston", "Moderator", "Inactive", AVATAR_BASE + "3", "https://linkedin.com", false, 3, "2025-03-12 08:15 AM")
  ]

  /** The user `addUser` appends to a list of `count` users; `now` is the
      formatted clock reading. */
  function NewUser(count: nat, name: string, role: string, now: string): (u: TableUser)
    ensures u.id == count + 1 && u.name == name && u.role == role
    ensures u.status == "Active" && !u.promoted && u.rating == 4
    ensures u.profilePic == AVATAR_BASE + NatToString(count + 1)
  {
    TableUser(count + 1, name, role, "Active", AVATAR_BASE + NatToString(count + 1),
              "https://twitter.com", false, 4, now)
  }

  /** Each user's id is its position plus one. */
  predicate IdsArePositions(users: seq<TableUser>) {
    forall i :: 0 <= i < |users| ==> users[i].id == i + 1
  }

  /** Ids that are positions are distinct, so they serve as row keys. */
  lemma IdsDistinct(users: seq<TableUser>, i: int, j: int)
    requires IdsArePositions(users)
    requires 0 <= i < |users| && 0 <= j < |users| && i != j
    ensures users[i].id != users[j].id
  {
  }

  lemma InitialIdsArePositions()
    ensures IdsArePositions(INITIAL_USERS)
  {
  }

  /** The table's state. */
  class UsersTable {
    var users: seq<TableUser>
    var newUserName: string
    var newUserRole: string

    ghost predicate Valid()
      reads this
    {
      IdsArePositions(users)
    }

    constructor ()
      ensures Valid()
      ensures users == INITIAL_USERS && newUserName == "" && newUserRole == "Viewer"
    {
      users := INITIAL_USERS;
      newUserName := "";
      newUserRole := "Viewer";
    }

    /** The name input's `onChange`. */
    method SetName(name: string)
      modifies this`newUserName
      ensures newUserName == name
    {
      newUserName := name;
    }

    /** The role select's `onChange`. */
    method SetRole(role: string)
      modifies this`newUserRole
      ensures newUserRole == role
    {
      newUserRole := role;
    }

    /** `addUser`: a name that is blank after trimming (`trim() === ""`,
        which by TrimEmptyIffBlank is a name of whitespace only) changes
        nothing; otherwise the new user goes at the end and the form is
        cleared. */
    method AddUser(now: string)
      requires Valid()
      modifies this
      ensures Valid()
      ensures IsBlank(old(newUserName)) ==>
        users == old(users) && newUserName == old(newUserName) && newUserRole == old(newUserRole)
      ensures !IsBlank(old(newUserName)) ==>
        && users == old(users) + [NewUser(|old(users)|, old(newUserName), old(newUserRole), now)]
        && newUserName == "" && newUserRole == "Viewer"
    {
      if IsBlank(newUserName) {
        return;
      }
      var user := NewUser(|users|, newUserName, newUserRole, now);
      users := users + [user];
      newUserName := "";
      newUserRole := "Viewer";
    }
  }

  /** `styles.role`: the colour of a role's cell. */
  function RoleColor(role: string): (c: string)
    ensures c == "blue" <==> role == "Administrator"
    ensures c == "purple" <==> role == "Moderator"
    ensures c == "black" <==> role != "Administrator" && role != "Moderator"
  {
    if role == "Administrator" then "blue" else if role == "Moderator" then "purple" else "black"
  }

  const STAR: char := '\U{2B50}'

  /** `"⭐".repeat(rating)`. */
  function Stars(rating: nat): (r: string)
    ensures |r| == rating
    ensures forall i :: 0 <= i < |r| ==> r[i] == STAR
  {
    if rating == 0 then "" else [STAR] + Stars(rating - 1)
  }
}
