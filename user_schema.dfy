/**
 * The User schema: normalised unique username and email, the email pattern,
 * the password-strength validator, the pre-save hashing hook and comparePassword.
 */
module UserSchema {
  import opened External
  import opened Strings

  /** A stored user. `categories` and `tasks` default to empty arrays and nothing fills them. */
  datatype User = User(
    id: ObjectId,
    username: string,
    email: string,
    password: string,
    categories: seq<ObjectId>,
    tasks: seq<ObjectId>)

  /** A user as a profile reply should show it: every path but the password. */
  datatype PublicUser = PublicUser(
    id: ObjectId,
    username: string,
    email: string,
    categories: seq<ObjectId>,
    tasks: seq<ObjectId>)

  function Public(u: User): PublicUser {
    PublicUser(u.id, u.username, u.email, u.categories, u.tasks)
  }

  /** The lowest zxcvbn score the password validator accepts. */
  const MinScore := 3
  /** The bcrypt cost factor of the pre-save hook. */
  const SaltRounds := 12

  predicate StrongPassword(libs: Libraries, password: string) {
    libs.zxcvbnScore(password) >= MinScore
  }

  /** s[i..e] is a non-empty run of non-space characters, '@' at a, a non-empty run, '.' at d, a non-empty run. */
  predicate EmailAt(s: string, i: int, a: int, d: int, e: int) {
    0 <= i < a && a + 1 < d && d + 1 < e <= |s| &&
    NoSpace(s[i..a]) && s[a] == '@' && NoSpace(s[a + 1..d]) && s[d] == '.' && NoSpace(s[d + 1..e])
  }

  /**
   * The email path's `match: /\S+@\S+\.\S+/`. The pattern is not anchored:
   * it is met when SOME substring of `s` has the shape EmailAt describes.
   */
  predicate MatchesEmailPattern(s: string) {
    exists i, a, d, e | 0 <= i < a < d < e <= |s| :: EmailAt(s, i, a, d, e)
  }

  /** An '@' at a with a non-space character before it, a non-empty run, a '.' at d with a non-space character after it. */
  predicate ShapeAt(s: string, a: int, d: int) {
    0 < a && a + 1 < d && d + 1 < |s| &&
    s[a] == '@' && !IsSpace(s[a - 1]) && NoSpace(s[a + 1..d]) && s[d] == '.' && !IsSpace(s[d + 1])
  }

  /** An independent description of the strings the pattern accepts, with single characters around '@' and '.'. */
  predicate HasEmailShape(s: string) {
    exists a, d | 0 < a < d < |s| :: ShapeAt(s, a, d)
  }

  lemma EmailPatternIsShape(s: string)
    ensures MatchesEmailPattern(s) <==> HasEmailShape(s)
  {
    if MatchesEmailPattern(s) {
      var i, a, d, e :| 0 <= i < a < d < e <= |s| && EmailAt(s, i, a, d, e);
      assert s[i..a][a - 1 - i] == s[a - 1];
      assert s[d + 1..e][0] == s[d + 1];
      assert ShapeAt(s, a, d);
    }
    if HasEmailShape(s) {
      var a, d :| 0 < a < d < |s| && ShapeAt(s, a, d);
      assert EmailAt(s, a - 1, a, d, d + 2);
    }
  }

  /** Because the pattern is not anchored, text around an address is accepted. */
  lemma EmailPatternUnanchored()
    ensures MatchesEmailPattern("mail x@y.z, thanks")
    ensures !MatchesEmailPattern("x@y")
    ensures !MatchesEmailPattern("x @y.z")
  {
    var s := "mail x@y.z, thanks";
    assert ShapeAt(s, 6, 8);
    EmailPatternIsShape(s);
    EmailPatternIsShape("x@y");
    var t := "x @y.z";
    EmailPatternIsShape(t);
  }

  /** Because the pattern is not anchored, any text may surround a matching string. */
  lemma EmailPatternUnanchoredAround(p: string, t: string, q: string)
    requires MatchesEmailPattern(t)
    ensures MatchesEmailPattern(p + t + q)
  {
    EmailPatternIsShape(t);
    var a, d :| 0 < a < d < |t| && ShapeAt(t, a, d);
    var s, n := p + t + q, |p|;
    assert s[n + a + 1..n + d] == t[a + 1..d];
    assert ShapeAt(s, n + a, n + d);
    EmailPatternIsShape(s);
  }

  /**
   * The schema's validation of a document about to be saved: every path
   * required, the password at least MinScore strong, the (already
   * normalised) email matching the pattern. Mongoose validates before it
   * runs the pre-save hook, so the strength is that of the plain password.
   */
  predicate ValidForSave(libs: Libraries, username: string, email: string, password: string) {
    username != "" && password != "" && StrongPassword(libs, password) &&
    email != "" && MatchesEmailPattern(email)
  }

  /**
   * What the schema accepts, with the email pattern replaced by its
   * independent description: all three paths present, the password strong
   * enough, and an '@' and a '.' with non-space text around them.
   */
  lemma ValidForSaveMeans(libs: Libraries, username: string, email: string, password: string)
    ensures ValidForSave(libs, username, email, password) <==>
      username != "" && password != "" && libs.zxcvbnScore(password) >= MinScore && HasEmailShape(email)
  {
    EmailPatternIsShape(email);
  }

  /** Of a document that is otherwise complete, the password decides validity by its score alone. */
  lemma StrengthGate(libs: Libraries, username: string, email: string, password: string)
    requires username != "" && email != "" && MatchesEmailPattern(email) && password != ""
    ensures ValidForSave(libs, username, email, password) <==> libs.zxcvbnScore(password) >= MinScore
  {
  }

  /** userSchema.methods.comparePassword: bcrypt.compare against the stored hash. */
  predicate ComparePassword(libs: Libraries, u: User, candidate: string) {
    libs.bcryptCompare(candidate, u.password)
  }

  /**
   * On a saved user, comparePassword is bcrypt's compare of the candidate
   * against the hash the pre-save hook stored: the plain password is never
   * compared, and it is accepted whenever bcrypt accepts it against its hash.
   */
  lemma ComparePasswordChecksHash(libs: Libraries, u: User, password: string, salt: nat, candidate: string)
    requires u.password == libs.bcryptHash(password, SaltRounds, salt)
    ensures ComparePassword(libs, u, candidate) <==> libs.bcryptCompare(candidate, libs.bcryptHash(password, SaltRounds, salt))
    ensures libs.bcryptCompare(password, libs.bcryptHash(password, SaltRounds, salt)) ==> ComparePassword(libs, u, password)
  {
  }

  /** Ids are the keys, and no two users share a username or an email: the unique indexes. */
  ghost predicate UniqueUsers(users: map<ObjectId, User>) {
    && (forall id :: id in users ==> users[id].id == id)
    && (forall a, b :: a in users && b in users && users[a].username == users[b].username ==> a == b)
    && (forall a, b :: a in users && b in users && users[a].email == users[b].email ==> a == b)
  }

  /** The user table's invariant: unique, and every username and email as the setters leave it. */
  ghost predicate UsersValid(users: map<ObjectId, User>) {
    UniqueUsers(users) &&
    forall id :: id in users ==> IsNormal(users[id].username) && IsNormal(users[id].email)
  }

  /** Adding a user with a fresh id, an untaken username and email, both normal, keeps the table valid. */
  lemma InsertKeepsUsersValid(users: map<ObjectId, User>, u: User)
    requires UsersValid(users) && u.id !in users && IsNormal(u.username) && IsNormal(u.email)
    requires forall id :: id in users ==> users[id].username != u.username && users[id].email != u.email
    ensures UsersValid(users[u.id := u])
  {
  }

  /** A User document between `new User(...)` and the end of `save()`. */
  class UserDocument {
    var id: ObjectId
    var username: string
    var email: string
    var password: string
    /** Mongoose's isModified('password') */
    var passwordModified: bool

    /** new User({ email, username, password }): the setters normalise username and email. */
    constructor (username: string, email: string, password: string)
      ensures this.username == Normalize(username) && this.email == Normalize(email)
      ensures this.password == password && passwordModified
    {
      this.id := 0;
      this.username := Normalize(username);
      this.email := Normalize(email);
      this.password := password;
      this.passwordModified := true;
    }

    /** The pre('save') hook: replace the password by its hash when, and only when, it was modified. */
    method PreSave(libs: Libraries, salt: nat)
      modifies this
      ensures password == if old(passwordModified) then libs.bcryptHash(old(password), SaltRounds, salt) else old(password)
      ensures id == old(id) && username == old(username) && email == old(email)
      ensures passwordModified == old(passwordModified)
    {
      if passwordModified {
        password := libs.bcryptHash(password, SaltRounds, salt);
      }
    }

    /** After a successful save Mongoose clears the modified paths. */
    method MarkSaved()
      modifies this
      ensures !passwordModified
      ensures id == old(id) && username == old(username) && email == old(email) && password == old(password)
    {
      passwordModified := false;
    }

    /** The record the document is saved as. */
    function Record(): User
      reads this
    {
      User(id, username, email, password, [], [])
    }
  }

  /** Saving a new document twice hashes its password once, with the first save's salt. */
  method SaveTwiceHashesOnce(libs: Libraries, username: string, email: string, password: string, salt1: nat, salt2: nat)
    returns (stored: string)
    ensures stored == libs.bcryptHash(password, SaltRounds, salt1)
  {
    var doc := new UserDocument(username, email, password);
    doc.PreSave(libs, salt1);
    doc.MarkSaved();
    doc.PreSave(libs, salt2);
    stored := doc.password;
  }
}
