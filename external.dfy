/**
 * The collaborators the core calls but whose code is not part of this model:
 * zxcvbn, bcrypt, express-validator's format checks and Mongoose's casts.
 * Each one is an uninterpreted function, passed to the handlers as a value.
 */
module External {
  import opened Wrappers

  /** A MongoDB ObjectId, modelled by the number it encodes. */
  type ObjectId = nat

  datatype Libraries = Libraries(
    /** zxcvbn(password).score */
    zxcvbnScore: string -> int,
    /** bcrypt.hash(password, cost), with the random salt drawn for that call */
    bcryptHash: (string, nat, nat) -> string,
    /** bcrypt.compare(candidate, storedHash) */
    bcryptCompare: (string, string) -> bool,
    /** express-validator's isEmail, isISO8601 and isMongoId */
    isEmail: string -> bool,
    isISO8601: string -> bool,
    isMongoId: string -> bool,
    /** Mongoose's cast of a string to an ObjectId; None is a CastError */
    castObjectId: string -> Option<ObjectId>,
    /** Mongoose's cast of a string to a Date, in milliseconds; None is an invalid date */
    castDate: string -> Option<int>)
  {
    /** What is known of express-validator: none of its format checks accepts the empty string. */
    predicate RejectsEmpty() {
      !isEmail("") && !isISO8601("") && !isMongoId("")
    }
  }

  /** The payload jsonwebtoken signs: the claim `userId`, and `iat`/`exp` in seconds. */
  datatype Token = Token(userId: ObjectId, iat: int, exp: int)
}
