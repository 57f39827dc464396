/** The three read-only lookups of the custom member repository, as functions
    of the table contents (rows in table order), and the lookup by primary key
    that `save` relies on. None of them can change the table: they are
    functions of it. */
module MemberRepository {
  import opened Common
  import opened MemberEntity

  predicate HasEmail(m: Member, email: string) {
    m.email == email
  }

  predicate HasKey(m: Member, id: int) {
    m.id == id
  }

  /** The position of the row whose primary key is `id`, or none. */
  function KeyIndex(table: seq<Member>, id: int): (r: Option<nat>)
    ensures r.Some? ==> r.value < |table| && table[r.value].id == id
    ensures r.Some? ==> forall j :: 0 <= j < r.value ==> table[j].id != id
    ensures r.None? <==> forall i :: 0 <= i < |table| ==> table[i].id != id
  {
    FirstIndex(table, m => HasKey(m, id))
  }

  predicate HasNameAndPhone(m: Member, name: string, phoneNumber: string) {
    m.name == name && m.phoneNumber == phoneNumber
  }

  /** findByEmail: the first row whose email equals `email`, or empty. */
  function FindByEmail(table: seq<Member>, email: string): (r: Option<Member>)
    ensures r.Some? ==> r.value in table && r.value.email == email
    ensures r.Some? ==> exists i :: 0 <= i < |table| && table[i] == r.value
                                    && forall j :: 0 <= j < i ==> table[j].email != email
    ensures r.None? <==> forall i :: 0 <= i < |table| ==> table[i].email != email
  {
    match FirstIndex(table, m => HasEmail(m, email))
    case None => None
    case Some(i) => Some(table[i])
  }

  /** existsByEmail: whether some row has an id and the given email. Every
      stored row has an id, so this is whether some row has the email. */
  function ExistsByEmail(table: seq<Member>, email: string): (b: bool)
    ensures b <==> exists i :: 0 <= i < |table| && table[i].email == email
  {
    FirstIndex(table, m => HasEmail(m, email)).Some?
  }

  /** findByNameAndPhone: the first row matching both fields, or empty. */
  function FindByNameAndPhone(table: seq<Member>, name: string, phoneNumber: string): (r: Option<Member>)
    ensures r.Some? ==> r.value in table && r.value.name == name && r.value.phoneNumber == phoneNumber
    ensures r.Some? ==> exists i :: 0 <= i < |table| && table[i] == r.value
                                    && forall j :: 0 <= j < i ==> !HasNameAndPhone(table[j], name, phoneNumber)
    ensures r.None? <==> forall i :: 0 <= i < |table| ==> !HasNameAndPhone(table[i], name, phoneNumber)
  {
    match FirstIndex(table, m => HasNameAndPhone(m, name, phoneNumber))
    case None => None
    case Some(i) => Some(table[i])
  }

  /** existsByEmail(e) agrees with findByEmail(e).isPresent(). */
  lemma ExistsIffFound(table: seq<Member>, email: string)
    ensures ExistsByEmail(table, email) <==> FindByEmail(table, email).Some?
  {
  }

  /** A row appended under an email no earlier row has is what findByEmail returns. */
  lemma FindAppendedFresh(table: seq<Member>, m: Member)
    requires !ExistsByEmail(table, m.email)
    ensures FindByEmail(table + [m], m.email) == Some(m)
  {
    var t := table + [m];
    var r := FindByEmail(t, m.email);
    assert t[|table|].email == m.email;
    var i :| 0 <= i < |t| && t[i] == r.value && forall j :: 0 <= j < i ==> t[j].email != m.email;
    assert i == |table|;
  }

  /** Appending a row never hides an existing email. */
  lemma ExistsAfterAppend(table: seq<Member>, m: Member, email: string)
    ensures ExistsByEmail(table + [m], email) <==> ExistsByEmail(table, email) || m.email == email
  {
    var t := table + [m];
    if ExistsByEmail(table, email) {
      var i :| 0 <= i < |table| && table[i].email == email;
      assert t[i] == table[i];
    }
    if m.email == email {
      assert t[|table|] == m;
    }
    if ExistsByEmail(t, email) {
      var i :| 0 <= i < |t| && t[i].email == email;
      if i < |table| {
        assert table[i] == t[i];
      }
    }
  }
}
