/**
 * The message tables for authentication and database error codes
 * (src/utils/FirebaseErrors.ts): total lookups with a catch-all message.
 */
module FirebaseErrors {

  const DefaultAuthMessage := "An error occurred. Please try again"
  const DefaultFirestoreMessage := "Database error occurred"

  /** The authentication codes the table knows. */
  const AuthCodes: set<string> := {
    "auth/invalid-email", "auth/user-disabled", "auth/user-not-found", "auth/wrong-password",
    "auth/email-already-in-use", "auth/weak-password", "auth/network-request-failed",
    "auth/too-many-requests", "auth/operation-not-allowed", "auth/invalid-credential"
  }

  /** The database codes the table knows. */
  const FirestoreCodes: set<string> := {"permission-denied", "unavailable", "aborted", "data-loss"}

  /** `getAuthErrorMessage`: never empty, and the catch-all exactly for unknown codes. */
  function AuthErrorMessage(code: string): (m: string)
    ensures m != ""
    ensures m == DefaultAuthMessage <==> code !in AuthCodes
    ensures code in AuthCodes ==> AuthCodeOf(m) == code
  {
    match code
    case "auth/invalid-email" => "Invalid email address"
    case "auth/user-disabled" => "Account disabled"
    case "auth/user-not-found" => "No account found with this email"
    case "auth/wrong-password" => "Incorrect password"
    case "auth/email-already-in-use" => "Email already in use"
    case "auth/weak-password" => "Password should be at least 6 characters"
    case "auth/network-request-failed" => "Network error. Please check your connection"
    case "auth/too-many-requests" => "Too many attempts. Try again later"
    case "auth/operation-not-allowed" => "Operation not allowed"
    case "auth/invalid-credential" => "Invalid credentials"
    case _ => DefaultAuthMessage
  }

  /** The code a known message came from: the inverse of the table. */
  function AuthCodeOf(m: string): string
  {
    match m
    case "Invalid email address" => "auth/invalid-email"
    case "Account disabled" => "auth/user-disabled"
    case "No account found with this email" => "auth/user-not-found"
    case "Incorrect password" => "auth/wrong-password"
    case "Email already in use" => "auth/email-already-in-use"
    case "Password should be at least 6 characters" => "auth/weak-password"
    case "Network error. Please check your connection" => "auth/network-request-failed"
    case "Too many attempts. Try again later" => "auth/too-many-requests"
    case "Operation not allowed" => "auth/operation-not-allowed"
    case "Invalid credentials" => "auth/invalid-credential"
    case _ => ""
  }

  /** Known codes have distinct messages: the message identifies the code. */
  lemma AuthMessagesIdentifyCode(c1: string, c2: string)
    requires c1 in AuthCodes && c2 in AuthCodes
    requires AuthErrorMessage(c1) == AuthErrorMessage(c2)
    ensures c1 == c2
  {
  }

  /** `getFirestoreError`: never empty, and the catch-all exactly for unknown codes. */
  function FirestoreError(code: string): (m: string)
    ensures m != ""
    ensures m == DefaultFirestoreMessage <==> code !in FirestoreCodes
    ensures code in FirestoreCodes ==> FirestoreCodeOf(m) == code
  {
    match code
    case "permission-denied" => "You don't have permission to perform this action"
    case "unavailable" => "Service unavailable. Try again later"
    case "aborted" => "Operation aborted"
    case "data-loss" => "Data loss occurred"
    case _ => DefaultFirestoreMessage
  }

  /** The database code a known message came from. */
  function FirestoreCodeOf(m: string): string
  {
    match m
    case "You don't have permission to perform this action" => "permission-denied"
    case "Service unavailable. Try again later" => "unavailable"
    case "Operation aborted" => "aborted"
    case "Data loss occurred" => "data-loss"
    case _ => ""
  }

  /** Known database codes have distinct messages. */
  lemma FirestoreMessagesIdentifyCode(c1: string, c2: string)
    requires c1 in FirestoreCodes && c2 in FirestoreCodes
    requires FirestoreError(c1) == FirestoreError(c2)
    ensures c1 == c2
  {
  }
}
