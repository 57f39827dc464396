/** The sign-up screen (Common/Register.tsx): typing into the form, the
    validation rules for both kinds of account, the number conversion and
    the body sent to the sign-up endpoint. */
module Register {
  import opened Common
  import opened Layout

  datatype RegisterForm = RegisterForm(
    email: string,
    password: string,
    confirmPassword: string,
    name: string,
    phone: string,
    hqName: string,
    businessNumber: string,
    storeName: string,
    address: string,
    region: string,
    ownerName: string)

  const EmptyForm := RegisterForm("", "", "", "", "", "", "", "", "", "", "")

  /** The keys of the form, which are also the keys of the error map. */
  datatype Key = Email | Password | ConfirmPassword | Name | Phone | HqName | BusinessNumber
               | StoreName | Address | Region | OwnerName

  function Get(f: RegisterForm, k: Key): string {
    match k
    case Email => f.email
    case Password => f.password
    case ConfirmPassword => f.confirmPassword
    case Name => f.name
    case Phone => f.phone
    case HqName => f.hqName
    case BusinessNumber => f.businessNumber
    case StoreName => f.storeName
    case Address => f.address
    case Region => f.region
    case OwnerName => f.ownerName
  }

  /** `{ ...prev, [field]: value }`. */
  function Set(f: RegisterForm, k: Key, v: string): (r: RegisterForm)
    ensures Get(r, k) == v
    ensures forall j :: j != k ==> Get(r, j) == Get(f, j)
  {
    match k
    case Email => f.(email := v)
    case Password => f.(password := v)
    case ConfirmPassword => f.(confirmPassword := v)
    case Name => f.(name := v)
    case Phone => f.(phone := v)
    case HqName => f.(hqName := v)
    case BusinessNumber => f.(businessNumber := v)
    case StoreName => f.(storeName := v)
    case Address => f.(address := v)
    case Region => f.(region := v)
    case OwnerName => f.(ownerName := v)
  }

  // ---------------------------------------------------------------------------
  // Validation
  // ---------------------------------------------------------------------------

  /** A character `[^\s@]` accepts. */
  predicate Plain(c: char) {
    c != '@' && !IsSpace(c)
  }

  predicate AllPlain(s: string) {
    forall i :: 0 <= i < |s| ==> Plain(s[i])
  }

  /** `^[^\s@]+@[^\s@]+\.[^\s@]+$`: a non-empty local part, one '@', then a
      domain with a dot that has something on both sides. */
  predicate EmailShaped(s: string) {
    exists a, d :: 0 < a && a + 1 < d < |s| - 1 && s[a] == '@' && s[d] == '.' && AllPlain(s[..a]) && AllPlain(s[a + 1..])
  }

  lemma EmailExamples()
    ensures EmailShaped("a@b.c")
    ensures !EmailShaped("a@b") && !EmailShaped("@b.c") && !EmailShaped("a@.c") && !EmailShaped("a@b.")
  {
    var s := "a@b.c";
    assert s[..1] == "a" && s[2..] == "b.c";
    assert Plain('a') && Plain('b') && Plain('.') && Plain('c');
    assert AllPlain(s[..1]) && AllPlain(s[2..]);
    assert 0 < 1 && 1 + 1 < 3 < |s| - 1 && s[1] == '@' && s[3] == '.';
  }

  /** A shaped address has exactly one '@' and no white space. */
  lemma EmailHasOneAt(s: string)
    requires EmailShaped(s)
    ensures exists a :: 0 <= a < |s| && s[a] == '@' && forall k :: 0 <= k < |s| && k != a ==> Plain(s[k])
  {
    var a, d :| 0 < a && a + 1 < d < |s| - 1 && s[a] == '@' && s[d] == '.' && AllPlain(s[..a]) && AllPlain(s[a + 1..]);
    forall k | 0 <= k < |s| && k != a ensures Plain(s[k]) {
      if k < a {
        assert s[..a][k] == s[k];
      } else {
        assert s[a + 1..][k - a - 1] == s[k];
      }
    }
  }

  const EmailMissing := "이메일을 입력해주세요."
  const EmailMalformed := "올바른 이메일 형식을 입력해주세요."
  const PasswordMissing := "비밀번호를 입력해주세요."
  const PasswordShort := "비밀번호는 6자 이상이어야 합니다."
  const ConfirmMissing := "비밀번호 확인을 입력해주세요."
  const ConfirmMismatch := "비밀번호가 일치하지 않습니다."

  /** The message for a required text field left empty. */
  function MissingMessage(k: Key): string {
    match k
    case Name => "이름을 입력해주세요."
    case Phone => "연락처를 입력해주세요."
    case HqName => "본사명을 입력해주세요."
    case BusinessNumber => "사업자등록번호를 입력해주세요."
    case StoreName => "매장명을 입력해주세요."
    case Address => "주소를 입력해주세요."
    case Region => "지역을 선택해주세요."
    case OwnerName => "점주명을 입력해주세요."
    case _ => ""
  }

  /** Whether an account of this type must fill in the key. */
  predicate Demanded(t: UserType, k: Key) {
    k in {Name, Phone}
    || (t == HQ && k in {HqName, BusinessNumber})
    || (t == Store && k in {StoreName, Address, Region, OwnerName})
  }

  function EmailCheck(email: string): Option<string> {
    if email == "" then Some(EmailMissing) else if !EmailShaped(email) then Some(EmailMalformed) else None
  }

  function PasswordCheck(password: string): Option<string> {
    if password == "" then Some(PasswordMissing) else if |password| < 6 then Some(PasswordShort) else None
  }

  function ConfirmCheck(password: string, confirm: string): Option<string> {
    if confirm == "" then Some(ConfirmMissing) else if password != confirm then Some(ConfirmMismatch) else None
  }

  function PresenceCheck(f: RegisterForm, t: UserType, k: Key): Option<string> {
    if Demanded(t, k) && Get(f, k) == "" then Some(MissingMessage(k)) else None
  }

  /** The message, if any, validateForm records under a key. */
  function CheckOf(f: RegisterForm, t: UserType, k: Key): Option<string> {
    match k
    case Email => EmailCheck(f.email)
    case Password => PasswordCheck(f.password)
    case ConfirmPassword => ConfirmCheck(f.password, f.confirmPassword)
    case _ => PresenceCheck(f, t, k)
  }

  const Keys: seq<Key> := [Email, Password, ConfirmPassword, Name, Phone, HqName, BusinessNumber,
                           StoreName, Address, Region, OwnerName]

  function Record(m: map<Key, string>, c: Option<string>, k: Key): (r: map<Key, string>)
    ensures c.Some? ==> r == m[k := c.value]
    ensures c.None? ==> r == m
  {
    if c.Some? then m[k := c.value] else m
  }

  function ErrorsOver(f: RegisterForm, t: UserType, ks: seq<Key>): (r: map<Key, string>)
    ensures forall k :: k in r <==> k in ks && CheckOf(f, t, k).Some?
    ensures forall k :: k in r ==> r[k] == CheckOf(f, t, k).value
  {
    if ks == [] then map[]
    else Record(ErrorsOver(f, t, ks[..|ks| - 1]), CheckOf(f, t, ks[|ks| - 1]), ks[|ks| - 1])
  }

  /** validateForm's error map: exactly the keys whose rule fails, each with its message. */
  function Errors(f: RegisterForm, t: UserType): (r: map<Key, string>)
    ensures Email in r <==> !EmailShaped(f.email)
    ensures Password in r <==> |f.password| < 6
    ensures ConfirmPassword in r <==> f.confirmPassword == "" || f.confirmPassword != f.password
    ensures forall k :: k !in {Email, Password, ConfirmPassword} ==> (k in r <==> Demanded(t, k) && Get(f, k) == "")
    ensures forall k :: k in r ==> r[k] == CheckOf(f, t, k).value
  {
    assert !EmailShaped("");
    EveryKeyListed();
    ErrorsOver(f, t, Keys)
  }

  lemma EveryKeyListed()
    ensures forall k: Key :: k in Keys
  {
    forall k: Key ensures k in Keys {
      match k {
        case Email => assert Keys[0] == k;
        case Password => assert Keys[1] == k;
        case ConfirmPassword => assert Keys[2] == k;
        case Name => assert Keys[3] == k;
        case Phone => assert Keys[4] == k;
        case HqName => assert Keys[5] == k;
        case BusinessNumber => assert Keys[6] == k;
        case StoreName => assert Keys[7] == k;
        case Address => assert Keys[8] == k;
        case Region => assert Keys[9] == k;
        case OwnerName => assert Keys[10] == k;
      }
    }
  }

  /** The fields of the other kind of account are never checked. */
  lemma OtherGroupUnchecked(f: RegisterForm)
    ensures forall k :: k in {StoreName, Address, Region, OwnerName} ==> k !in Errors(f, HQ)
    ensures forall k :: k in {HqName, BusinessNumber} ==> k !in Errors(f, Store)
  {
    var hq, store := Errors(f, HQ), Errors(f, Store);
    forall k | k in {StoreName, Address, Region, OwnerName} ensures k !in hq {
      assert !Demanded(HQ, k);
    }
    forall k | k in {HqName, BusinessNumber} ensures k !in store {
      assert !Demanded(Store, k);
    }
  }

  predicate Valid(f: RegisterForm, t: UserType) {
    |Errors(f, t)| == 0
  }

  /** Every rule holds. */
  predicate RulesHold(f: RegisterForm, t: UserType) {
    EmailShaped(f.email) && |f.password| >= 6 && f.confirmPassword == f.password
    && f.name != "" && f.phone != ""
    && (t == HQ ==> f.hqName != "" && f.businessNumber != "")
    && (t == Store ==> f.storeName != "" && f.address != "" && f.region != "" && f.ownerName != "")
  }

  /** The form passes iff every rule holds. */
  lemma ValidMeaning(f: RegisterForm, t: UserType)
    ensures Valid(f, t) <==> RulesHold(f, t)
  {
    if Valid(f, t) {
      ValidRulesHold(f, t);
    } else {
      var k :| k in Errors(f, t);
      FailedRuleBreaks(f, t, k);
    }
  }

  lemma FailedRuleBreaks(f: RegisterForm, t: UserType, k: Key)
    requires k in Errors(f, t)
    ensures !RulesHold(f, t)
  {
    var c := CheckOf(f, t, k);
    assert c.Some?;
    match k {
      case Email =>
      case Password =>
      case ConfirmPassword =>
      case _ =>
        assert Demanded(t, k) && Get(f, k) == "";
    }
  }

  lemma ValidRulesHold(f: RegisterForm, t: UserType)
    requires Valid(f, t)
    ensures RulesHold(f, t)
  {
    ValidCommonRules(f, t);
    if t == HQ {
      ValidOfficeRules(f);
    } else {
      ValidStoreRules(f);
    }
  }

  /** A demanded field of a valid form is filled in. */
  lemma ValidDemandedFilled(f: RegisterForm, t: UserType, k: Key)
    requires Valid(f, t) && Demanded(t, k) && k !in {Email, Password, ConfirmPassword}
    ensures Get(f, k) != ""
  {
    assert k !in Errors(f, t);
  }

  lemma ValidCommonRules(f: RegisterForm, t: UserType)
    requires Valid(f, t)
    ensures EmailShaped(f.email) && |f.password| >= 6 && f.confirmPassword == f.password
    ensures f.name != "" && f.phone != ""
  {
    var m := Errors(f, t);
    assert Email !in m && Password !in m && ConfirmPassword !in m;
    ValidDemandedFilled(f, t, Name);
    ValidDemandedFilled(f, t, Phone);
  }

  lemma ValidOfficeRules(f: RegisterForm)
    requires Valid(f, HQ)
    ensures f.hqName != "" && f.businessNumber != ""
  {
    ValidDemandedFilled(f, HQ, HqName);
    ValidDemandedFilled(f, HQ, BusinessNumber);
  }

  lemma ValidStoreRules(f: RegisterForm)
    requires Valid(f, Store)
    ensures f.storeName != "" && f.address != "" && f.region != "" && f.ownerName != ""
  {
    ValidDemandedFilled(f, Store, StoreName);
    ValidDemandedFilled(f, Store, Address);
    ValidDemandedFilled(f, Store, Region);
    ValidDemandedFilled(f, Store, OwnerName);
  }

  // ---------------------------------------------------------------------------
  // Numbers for the server
  // ---------------------------------------------------------------------------

  /** toNumberOrNull as written: drop every non-digit and read the rest as a number. */
  function ToNumberOrNull(s: string): (r: Option<nat>)
    ensures r.None? <==> DigitsOf(s) == ""
    ensures r.Some? ==> r.value == DigitsValue(DigitsOf(s))
  {
    var d := DigitsOf(s);
    if d == "" then None else Some(DigitsValue(d))
  }

  /** A mobile number's leading zero is lost: "010" and "10" are sent as the
      same number, and the server, which keeps phone numbers as text, stores "10". */
  lemma LeadingZeroLost()
    ensures ToNumberOrNull("010") == ToNumberOrNull("10") == Some(10)
    ensures NatToString(10) != DigitsOf("010")
  {
    assert DigitsOf("010") == "010";
    assert DigitsOf("10") == "10";
    assert "010"[..2] == "01" && "01"[..1] == "0";
    assert "10"[..1] == "1";
  }

  /** The number sent as its digits: null iff there are none, otherwise every
      digit in order, leading zeros included. */
  function DigitsOrNull(s: string): (r: Option<string>)
    ensures r.None? <==> DigitsOf(s) == ""
    ensures r.Some? ==> r.value == DigitsOf(s) && AllDigits(r.value)
  {
    var d := DigitsOf(s);
    if d == "" then None else Some(d)
  }

  /** A number typed as bare digits reaches the server unchanged; the value it
      spells is still what toNumberOrNull computes. */
  lemma DigitsRoundTrip(s: string)
    requires s != "" && AllDigits(s)
    ensures DigitsOrNull(s) == Some(s)
    ensures ToNumberOrNull(s) == Some(DigitsValue(DigitsOrNull(s).value))
  {
    DigitsOfDigits(s);
  }

  /** The sign-up body. */
  datatype Payload = Payload(
    name: string,
    phoneNumber: Option<string>,
    email: string,
    password: string,
    storeName: Option<string>,
    storeMangerName: Option<string>,
    storeAddress: Option<string>,
    region: Option<string>,
    officeName: Option<string>,
    officeNumber: Option<string>)

  function OnlyFor(t: UserType, wanted: UserType, v: string): Option<string> {
    if t == wanted then Some(v) else None
  }

  /** Store fields are null unless a store signs up, office fields null
      unless head office does. */
  function PayloadOf(f: RegisterForm, t: UserType): (p: Payload)
    ensures p.name == f.name && p.email == f.email && p.password == f.password
    ensures p.phoneNumber == DigitsOrNull(f.phone)
    ensures t == Store <==> p.storeName.Some?
    ensures t == Store ==>
              p.storeName == Some(f.storeName) && p.storeMangerName == Some(f.ownerName)
              && p.storeAddress == Some(f.address) && p.region == Some(f.region)
              && p.officeName.None? && p.officeNumber.None?
    ensures t == HQ ==>
              p.officeName == Some(f.hqName) && p.officeNumber == DigitsOrNull(f.businessNumber)
              && p.storeName.None? && p.storeMangerName.None? && p.storeAddress.None? && p.region.None?
  {
    Payload(f.name, DigitsOrNull(f.phone), f.email, f.password,
            OnlyFor(t, Store, f.storeName), OnlyFor(t, Store, f.ownerName), OnlyFor(t, Store, f.address),
            OnlyFor(t, Store, f.region), OnlyFor(t, HQ, f.hqName),
            if t == HQ then DigitsOrNull(f.businessNumber) else None)
  }

  // ---------------------------------------------------------------------------
  // The screen
  // ---------------------------------------------------------------------------

  class Register {
    var userType: UserType
    var form: RegisterForm
    var errors: map<Key, string>
    /** The bodies posted to the sign-up endpoint, oldest first. */
    var sent: seq<Payload>

    constructor ()
      ensures userType == Store && form == EmptyForm && errors == map[] && sent == []
    {
      userType := Store;
      form := EmptyForm;
      errors := map[];
      sent := [];
    }

    method SelectType(t: UserType)
      modifies this`userType
      ensures userType == t
    {
      userType := t;
    }

    /** handleInputChange: only that field changes, and only its error is blanked. */
    method InputChange(k: Key, v: string)
      modifies this`form, this`errors
      ensures form == Set(old(form), k, v)
      ensures errors == if k in old(errors) && old(errors)[k] != "" then old(errors)[k := ""] else old(errors)
    {
      form := Set(form, k, v);
      if k in errors && errors[k] != "" {
        errors := errors[k := ""];
      }
    }

    /** handleSubmit: a valid form is posted, an invalid one shows its errors. */
    method Submit() returns (valid: bool)
      modifies this`errors, this`sent
      ensures errors == Errors(form, userType) && (valid <==> Valid(form, userType))
      ensures sent == if valid then old(sent) + [PayloadOf(form, userType)] else old(sent)
    {
      errors := Errors(form, userType);
      valid := |errors| == 0;
      if valid {
        sent := sent + [PayloadOf(form, userType)];
      }
    }
  }
}
