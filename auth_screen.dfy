/** The sign-up, document and login checks of the authentication screen,
    and the form state they update. */
module AuthScreen {
  import opened Common

  datatype FileInfo = FileInfo(name: string, size: nat, mimeType: string)

  datatype LoginForm = LoginForm(email: string, password: string)

  datatype SignupForm = SignupForm(
    email: string,
    password: string,
    confirmPassword: string,
    fullName: string,
    country: string,
    currencyCode: string,
    verificationDocType: string,
    verificationDocFile: Option<FileInfo>)

  const MinPasswordLength: nat := 6
  const MaxDocumentBytes: nat := 5 * 1024 * 1024
  const AllowedDocumentTypes: seq<string> := ["image/jpeg", "image/jpg", "image/png", "application/pdf"]

  function InitialSignupForm(): SignupForm
  {
    SignupForm("", "", "", "", "", "USD", "", None)
  }

  // ---------------------------------------------------------------------------
  // Sign-up checks

  datatype SignupError = PasswordMismatch | WeakPassword | DocumentTypeMissing | DocumentMissing

  /** JavaScript's `length` of a string: the number of UTF-16 code units, so a
      character outside the Basic Multilingual Plane counts twice. */
  function Utf16Length(s: string): (n: nat)
    ensures |s| <= n <= 2 * |s|
    ensures (forall i :: 0 <= i < |s| ==> s[i] as int <= 0xFFFF) ==> n == |s|
  {
    if s == [] then 0 else (if s[0] as int > 0xFFFF then 2 else 1) + Utf16Length(s[1..])
  }

  /** The position of each check in the chain. */
  function Rank(e: SignupError): nat
  {
    match e
    case PasswordMismatch => 0
    case WeakPassword => 1
    case DocumentTypeMissing => 2
    case DocumentMissing => 3
  }

  /** Each check on its own, independent of the order they run in. */
  predicate Fails(f: SignupForm, e: SignupError)
  {
    match e
    case PasswordMismatch => f.password != f.confirmPassword
    case WeakPassword => Utf16Length(f.password) < MinPasswordLength
    case DocumentTypeMissing => f.verificationDocType == ""
    case DocumentMissing => f.verificationDocFile.None?
  }

  /** The early-return chain of the sign-up handler: None when every check passes,
      otherwise the error it reports. The reported error is the first failing check. */
  function CheckSignup(f: SignupForm): (r: Option<SignupError>)
    ensures r.None? ==> forall e :: !Fails(f, e)
    ensures r.Some? ==> Fails(f, r.value)
    ensures r.Some? ==> forall e :: Rank(e) < Rank(r.value) ==> !Fails(f, e)
  {
    if f.password != f.confirmPassword then Some(PasswordMismatch)
    else if Utf16Length(f.password) < MinPasswordLength then Some(WeakPassword)
    else if f.verificationDocType == "" then Some(DocumentTypeMissing)
    else if f.verificationDocFile.None? then Some(DocumentMissing)
    else None
  }

  /** Six code units pass the length check; five do not. */
  lemma PasswordLengthBoundary(f: SignupForm)
    requires f.password == f.confirmPassword
    ensures Utf16Length(f.password) == 6 ==> CheckSignup(f) != Some(WeakPassword)
    ensures Utf16Length(f.password) == 5 ==> CheckSignup(f) == Some(WeakPassword)
  {
  }

  /** Three characters outside the Basic Multilingual Plane are six code units, so such a
      password passes the length check although it has only three characters. */
  lemma AstralPasswordPasses(f: SignupForm)
    requires f.password == f.confirmPassword == "\U{1F600}\U{1F600}\U{1F600}"
    ensures |f.password| == 3
    ensures CheckSignup(f) != Some(WeakPassword)
  {
    var p := f.password;
    assert p[1..][1..][1..] == [];
    assert Utf16Length(p[1..][1..]) == 2;
    assert Utf16Length(p[1..]) == 4;
    assert Utf16Length(p) == 6;
  }

  // ---------------------------------------------------------------------------
  // Document checks

  datatype DocumentError = FileTooLarge | InvalidFileType

  /** The size check runs first, then the type allow-list. */
  function CheckDocument(file: FileInfo): (r: Option<DocumentError>)
    ensures r.None? <==> file.size <= MaxDocumentBytes && file.mimeType in AllowedDocumentTypes
    ensures r == Some(FileTooLarge) <==> file.size > MaxDocumentBytes
  {
    if file.size > MaxDocumentBytes then Some(FileTooLarge)
    else if file.mimeType !in AllowedDocumentTypes then Some(InvalidFileType)
    else None
  }

  /** Exactly 5 MiB is accepted; one byte more is not. */
  lemma DocumentSizeBoundary(name: string, mimeType: string)
    requires mimeType in AllowedDocumentTypes
    ensures CheckDocument(FileInfo(name, 5242880, mimeType)).None?
    ensures CheckDocument(FileInfo(name, 5242881, mimeType)) == Some(FileTooLarge)
  {
  }

  // ---------------------------------------------------------------------------
  // Login role gate

  datatype LoginOutcome = LoginFailed | AccessDenied | LoggedIn

  /** After sign-in, a user holding the admin or moderator role is signed out and denied.
      isAdmin / isModerator are the answers of the role lookups (a failed lookup reads as false). */
  function LoginDecision(signInOk: bool, userId: Option<string>, isAdmin: bool, isModerator: bool): (r: LoginOutcome)
    ensures r == LoginFailed <==> !signInOk
    ensures signInOk && userId.Some? && (isAdmin || isModerator) ==> r == AccessDenied
    ensures r == LoggedIn ==> signInOk && (userId.Some? ==> !isAdmin && !isModerator)
    ensures signInOk && !(userId.Some? && (isAdmin || isModerator)) ==> r == LoggedIn
  {
    if !signInOk then LoginFailed
    else if userId.Some? && (isAdmin || isModerator) then AccessDenied
    else LoggedIn
  }

  // ---------------------------------------------------------------------------
  // Upload file name

  /** `name.split('.').pop()`: the text after the last '.', or the whole name when it has none. */
  function FileExtension(name: string): (ext: string)
    ensures '.' !in ext
    ensures |ext| <= |name| && ext == name[|name| - |ext|..]
    ensures |ext| < |name| ==> name[|name| - |ext| - 1] == '.'
    ensures '.' !in name ==> ext == name
  {
    if name == [] then []
    else if name[|name| - 1] == '.' then []
    else FileExtension(name[..|name| - 1]) + [name[|name| - 1]]
  }

  lemma {:induction false} ExtensionAfterLastDot(a: string, b: string)
    requires '.' !in b
    ensures FileExtension(a + "." + b) == b
  {
    if b != [] {
      var s := a + "." + b;
      var init := b[..|b| - 1];
      assert s[..|s| - 1] == a + "." + init;
      ExtensionAfterLastDot(a, init);
      assert init + [b[|b| - 1]] == b;
    } else {
      var s := a + ".";
      assert s[|s| - 1] == '.';
    }
  }

  function DigitChar(d: nat): (c: char)
    requires d < 10
    ensures '0' <= c <= '9'
    ensures c as int - '0' as int == d
  {
    ['0', '1', '2', '3', '4', '5', '6', '7', '8', '9'][d]
  }

  /** The number a string of decimal digits denotes, read most significant digit first. */
  function DigitsValue(s: string): nat
    requires forall i :: 0 <= i < |s| ==> '0' <= s[i] <= '9'
  {
    if s == [] then 0 else 10 * DigitsValue(s[..|s| - 1]) + (s[|s| - 1] as int - '0' as int)
  }

  /** The decimal text of `Date.now()`: digits denoting n, with no leading zero. */
  function DecimalString(n: nat): (s: string)
    ensures |s| >= 1
    ensures forall i :: 0 <= i < |s| ==> '0' <= s[i] <= '9'
    ensures DigitsValue(s) == n
    ensures n > 0 ==> s[0] != '0'
    ensures n == 0 ==> s == "0"
  {
    if n < 10 then
      [DigitChar(n)]
    else
      var front := DecimalString(n / 10);
      var s := front + [DigitChar(n % 10)];
      assert s[..|s| - 1] == front;
      s
  }

  /** `${user.id}_${Date.now()}.${fileExt}` */
  function UploadFileName(userId: string, timestamp: nat, fileName: string): string
  {
    userId + "_" + DecimalString(timestamp) + "." + FileExtension(fileName)
  }

  /** The stored name starts with the user id and keeps the document's extension. */
  lemma UploadFileNameShape(userId: string, timestamp: nat, fileName: string)
    ensures UploadFileName(userId, timestamp, fileName)[..|userId| + 1] == userId + "_"
    ensures FileExtension(UploadFileName(userId, timestamp, fileName)) == FileExtension(fileName)
  {
    ExtensionAfterLastDot(userId + "_" + DecimalString(timestamp), FileExtension(fileName));
  }

  // ---------------------------------------------------------------------------
  // The screen's form state

  /** The row update sent to `users` after a successful upload. */
  datatype VerificationUpdate = VerificationUpdate(
    userId: string, documentType: string, documentUrl: string, verificationStatus: string)

  /** What happened to the verification document after registration: nothing (no current
      user or no file), a failed upload, or an upload followed by the row update. */
  datatype DocumentOutcome =
    | NotUploaded
    | UploadFailed(fileName: string)
    | Uploaded(fileName: string, update: VerificationUpdate)

  /** The upload step of handleSignup: it runs only with a current user and a stored file;
      a successful upload sets the user's verification status to pending. */
  function UploadDocument(form: SignupForm, currentUser: Option<string>, now: nat, uploadOk: bool, publicUrl: string)
    : (d: DocumentOutcome)
    ensures d.NotUploaded? <==> currentUser.None? || form.verificationDocFile.None?
    ensures !d.NotUploaded? ==> d.fileName == UploadFileName(currentUser.value, now, form.verificationDocFile.value.name)
    ensures d.Uploaded? <==> currentUser.Some? && form.verificationDocFile.Some? && uploadOk
    ensures d.Uploaded? ==>
              d.update == VerificationUpdate(currentUser.value, form.verificationDocType, publicUrl, "pending")
  {
    if currentUser.None? || form.verificationDocFile.None? then NotUploaded
    else
      var fileName := UploadFileName(currentUser.value, now, form.verificationDocFile.value.name);
      if uploadOk
      then Uploaded(fileName, VerificationUpdate(currentUser.value, form.verificationDocType, publicUrl, "pending"))
      else UploadFailed(fileName)
  }

  datatype SignupOutcome =
    | Invalid(error: SignupError)
    | RegistrationFailed
    | Registered(document: DocumentOutcome)

  /** Whether the sign-up service was called on the way to this outcome. */
  predicate SignUpCalled(o: SignupOutcome)
  {
    !o.Invalid?
  }

  class AuthForms {
    var activeTab: string
    var loginForm: LoginForm
    var signupForm: SignupForm

    constructor ()
      ensures activeTab == "login" && loginForm == LoginForm("", "")
      ensures signupForm == InitialSignupForm()
    {
      activeTab := "login";
      loginForm := LoginForm("", "");
      signupForm := InitialSignupForm();
    }

    /** handleFileChange: the first selected file is stored only if it passes both checks. */
    method HandleFileChange(files: seq<FileInfo>) returns (rejected: Option<DocumentError>)
      modifies this`signupForm
      ensures files == [] ==> rejected.None? && signupForm == old(signupForm)
      ensures files != [] ==> rejected == CheckDocument(files[0])
      ensures files != [] && rejected.None? ==> signupForm == old(signupForm).(verificationDocFile := Some(files[0]))
      ensures rejected.Some? ==> signupForm == old(signupForm)
    {
      rejected := None;
      if files != [] {
        var file := files[0];
        rejected := CheckDocument(file);
        if rejected.None? {
          signupForm := signupForm.(verificationDocFile := Some(file));
        }
      }
    }

    /** handleSignup. The results of the services it awaits are parameters: whether sign-up
        succeeded, the current user afterwards, the upload time, whether the upload
        succeeded and the public URL of the stored document. */
    method HandleSignup(signUpOk: bool, currentUser: Option<string>, now: nat, uploadOk: bool, publicUrl: string)
      returns (outcome: SignupOutcome)
      modifies this`activeTab, this`loginForm
      ensures signupForm == old(signupForm)
      ensures SignUpCalled(outcome) <==> CheckSignup(signupForm).None?
      ensures CheckSignup(signupForm).Some? ==> outcome == Invalid(CheckSignup(signupForm).value)
      ensures CheckSignup(signupForm).None? && !signUpOk ==> outcome == RegistrationFailed
      ensures outcome.Invalid? || outcome.RegistrationFailed? ==>
                activeTab == old(activeTab) && loginForm == old(loginForm)
      ensures CheckSignup(signupForm).None? && signUpOk ==>
                && activeTab == "login"
                && loginForm == LoginForm(signupForm.email, "")
                && outcome == Registered(UploadDocument(signupForm, currentUser, now, uploadOk, publicUrl))
    {
      var check := CheckSignup(signupForm);
      if check.Some? {
        return Invalid(check.value);
      }
      if !signUpOk {
        return RegistrationFailed;
      }
      var document := UploadDocument(signupForm, currentUser, now, uploadOk, publicUrl);
      activeTab := "login";
      loginForm := LoginForm(signupForm.email, "");
      outcome := Registered(document);
    }
  }

  /** Sign-up is never attempted while any check fails. */
  lemma NoSignUpOnInvalidForm(f: SignupForm, e: SignupError)
    requires Fails(f, e)
    ensures CheckSignup(f).Some?
  {
  }
}
