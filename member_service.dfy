/** Sign-up, login and duplicate-email checking on top of the member table. */
module MemberService {
  import opened Common
  import opened MemberEntity
  import opened MemberRepository

  const EmailTaken := "이미 존재하는 이메일입니다."
  const NoAccount := "존재하지 않는 계정입니다."
  const WrongPassword := "비밀번호가 일치하지 않습니다."

  /** No two rows share an email: what checking before saving keeps true. */
  predicate EmailsUnique(table: seq<Member>) {
    forall i, j :: 0 <= i < j < |table| ==> table[i].email != table[j].email
  }

  /** Every key is below the next generated one and keys grow in table order. */
  predicate KeysBelow(table: seq<Member>, nextId: int) {
    && (forall i :: 0 <= i < |table| ==> table[i].id < nextId)
    && (forall i, j :: 0 <= i < j < |table| ==> table[i].id < table[j].id)
  }

  /** The outcome of login: the row found by email when its password is the
      supplied one; otherwise the exception message the service throws. */
  function Authenticate(table: seq<Member>, email: string, password: string): (r: Result<Member, string>)
    ensures r == Err(NoAccount) <==> !ExistsByEmail(table, email)
    ensures r == Err(WrongPassword) <==>
              FindByEmail(table, email).Some? && FindByEmail(table, email).value.password != password
    ensures r.Ok? ==> r == Ok(FindByEmail(table, email).value)
    ensures r.Ok? ==> r.value in table && r.value.email == email && r.value.password == password
  {
    match FindByEmail(table, email)
    case None => Err(NoAccount)
    case Some(m) => if m.password != password then Err(WrongPassword) else Ok(m)
  }

  /** With unique emails, login succeeds exactly when some row has both the
      email and the password. */
  lemma AuthenticateIffRow(table: seq<Member>, email: string, password: string)
    requires EmailsUnique(table)
    ensures Authenticate(table, email, password).Ok? <==>
              exists i :: 0 <= i < |table| && table[i].email == email && table[i].password == password
  {
    if exists i :: 0 <= i < |table| && table[i].email == email && table[i].password == password {
      var i :| 0 <= i < |table| && table[i].email == email && table[i].password == password;
      var r := FindByEmail(table, email);
      var k :| 0 <= k < |table| && table[k] == r.value && forall j :: 0 <= j < k ==> table[j].email != email;
      assert k == i;
    }
  }

  /** Saving a row under a fresh email keeps emails unique. */
  lemma SaveFreshKeepsEmailsUnique(table: seq<Member>, m: Member)
    requires EmailsUnique(table) && !ExistsByEmail(table, m.email)
    ensures EmailsUnique(table + [m])
  {
    var t := table + [m];
    forall i, j | 0 <= i < j < |t| ensures t[i].email != t[j].email {
      if j == |table| {
        assert t[i] == table[i];
      } else {
        assert t[i] == table[i] && t[j] == table[j];
      }
    }
  }

  /** What `save` did with an entity: the row as stored, the new table and
      the next generated key. */
  datatype Saved = Saved(row: Member, table: seq<Member>, nextId: int)

  /** Whether `save` merges: the entity's key is not null and names a row. */
  predicate Merges(table: seq<Member>, key: Option<int>) {
    key.Some? && KeyIndex(table, key.value).Some?
  }

  /** `memberRepository.save(new Member(dto.getId(), ...))`. An entity whose
      key is null is new: it is inserted under the next generated key. An
      entity with a key is merged: over the row with that key, in place, when
      there is one; otherwise it is inserted under the next generated key,
      as a merge does for a generated key that names no row. */
  function SaveRequest(table: seq<Member>, nextId: int, dto: MemberDto): (r: Saved)
    ensures ToDto(r.row) == dto.(id := Some(r.row.id))
    ensures Merges(table, dto.id) ==>
              && r.row.id == dto.id.value && r.nextId == nextId
              && r.table == table[KeyIndex(table, dto.id.value).value := r.row]
    ensures !Merges(table, dto.id) ==>
              r.row.id == nextId && r.table == table + [r.row] && r.nextId == nextId + 1
  {
    if Merges(table, dto.id) then
      var m := FromDto(dto, dto.id.value);
      Saved(m, table[KeyIndex(table, dto.id.value).value := m], nextId)
    else
      var m := FromDto(dto, nextId);
      Saved(m, table + [m], nextId + 1)
  }

  /** After a sign-up under a free email the email is reported as taken and
      the member can log in with the password given at sign-up, whether the
      row was inserted or merged. */
  lemma SignupThenLogin(table: seq<Member>, nextId: int, dto: MemberDto)
    requires !ExistsByEmail(table, dto.email)
    ensures ExistsByEmail(SaveRequest(table, nextId, dto).table, dto.email)
    ensures Authenticate(SaveRequest(table, nextId, dto).table, dto.email, dto.password)
              == Ok(SaveRequest(table, nextId, dto).row)
  {
    var r := SaveRequest(table, nextId, dto);
    if Merges(table, dto.id) {
      var i := KeyIndex(table, dto.id.value).value;
      FindReplacedFresh(table, i, r.row);
    } else {
      FindAppendedFresh(table, r.row);
    }
  }

  /** A row written over position `i` under an email no row has is the only
      row with that email, so findByEmail returns it. */
  lemma FindReplacedFresh(table: seq<Member>, i: nat, m: Member)
    requires i < |table| && !ExistsByEmail(table, m.email)
    ensures FindByEmail(table[i := m], m.email) == Some(m)
  {
    var t := table[i := m];
    assert t[i].email == m.email;
    var r := FindByEmail(t, m.email);
    var k :| 0 <= k < |t| && t[k] == r.value && forall j :: 0 <= j < k ==> t[j].email != m.email;
  }

  /** Saving a request under a free email keeps emails unique and keys
      ordered below the next generated key. */
  lemma SaveRequestKeepsValid(table: seq<Member>, nextId: int, dto: MemberDto)
    requires EmailsUnique(table) && KeysBelow(table, nextId) && !ExistsByEmail(table, dto.email)
    ensures EmailsUnique(SaveRequest(table, nextId, dto).table)
    ensures KeysBelow(SaveRequest(table, nextId, dto).table, SaveRequest(table, nextId, dto).nextId)
  {
    var r := SaveRequest(table, nextId, dto);
    if Merges(table, dto.id) {
      var i := KeyIndex(table, dto.id.value).value;
      forall a, b | 0 <= a < b < |r.table| ensures r.table[a].email != r.table[b].email {
        if a == i {
          assert r.table[b] == table[b];
        } else if b == i {
          assert r.table[a] == table[a];
        } else {
          assert r.table[a] == table[a] && r.table[b] == table[b];
        }
      }
      forall a | 0 <= a < |r.table| ensures r.table[a].id == table[a].id {
      }
    } else {
      SaveFreshKeepsEmailsUnique(table, r.row);
      var t := r.table;
      forall a, b | 0 <= a < b < |t| ensures t[a].id < t[b].id {
        if b < |table| {
          assert t[a] == table[a] && t[b] == table[b];
        } else {
          assert t[a] == table[a];
        }
      }
    }
  }

  /** A sign-up whose body names the key of an existing member, under a free
      email, overwrites that member: the table keeps its length, and when
      emails were unique the old member's email is gone, so that member can
      no longer log in. */
  lemma MergeOverwritesMember(table: seq<Member>, nextId: int, dto: MemberDto)
    requires EmailsUnique(table) && !ExistsByEmail(table, dto.email) && Merges(table, dto.id)
    ensures |SaveRequest(table, nextId, dto).table| == |table|
    ensures var old_ := table[KeyIndex(table, dto.id.value).value];
            && !ExistsByEmail(SaveRequest(table, nextId, dto).table, old_.email)
            && Authenticate(SaveRequest(table, nextId, dto).table, old_.email, old_.password) == Err(NoAccount)
  {
    var i := KeyIndex(table, dto.id.value).value;
    var t := SaveRequest(table, nextId, dto).table;
    assert table[i].email != dto.email;
    forall k | 0 <= k < |t| ensures t[k].email != table[i].email {
      if k != i {
        assert t[k] == table[k];
      }
    }
  }

  class MemberService {
    /** The rows of the member table, in table order. */
    var table: seq<Member>
    /** The key the table generates for the next saved row. */
    var nextId: int

    ghost predicate Valid()
      reads this
    {
      EmailsUnique(table) && KeysBelow(table, nextId)
    }

    constructor ()
      ensures Valid() && table == [] && nextId == 1
    {
      table := [];
      nextId := 1;
    }

    /** signup: rejects a taken email and saves nothing; otherwise saves the
        request's fields (password verbatim) under the request's own key:
        over the row with that key when there is one, else appended under a
        new key. */
    method Signup(dto: MemberDto) returns (r: Result<Member, string>)
      requires Valid()
      modifies this
      ensures Valid()
      ensures ExistsByEmail(old(table), dto.email) ==>
                r == Err(EmailTaken) && table == old(table) && nextId == old(nextId)
      ensures !ExistsByEmail(old(table), dto.email) ==>
                && r == Ok(SaveRequest(old(table), old(nextId), dto).row)
                && table == SaveRequest(old(table), old(nextId), dto).table
                && nextId == SaveRequest(old(table), old(nextId), dto).nextId
      ensures !ExistsByEmail(old(table), dto.email) && !Merges(old(table), dto.id) ==>
                r == Ok(FromDto(dto, old(nextId))) && table == old(table) + [r.value]
      ensures !ExistsByEmail(old(table), dto.email) && Merges(old(table), dto.id) ==>
                r == Ok(FromDto(dto, dto.id.value)) && |table| == |old(table)|
    {
      if ExistsByEmail(table, dto.email) {
        return Err(EmailTaken);
      }
      var saved := SaveRequest(table, nextId, dto);
      SaveRequestKeepsValid(table, nextId, dto);
      table := saved.table;
      nextId := saved.nextId;
      r := Ok(saved.row);
    }

    /** login: a query; the table is not in its frame. */
    method Login(email: string, password: string) returns (r: Result<Member, string>)
      ensures r == Authenticate(table, email, password)
    {
      var found := FindByEmail(table, email);
      if found.None? {
        return Err(NoAccount);
      }
      if found.value.password != password {
        return Err(WrongPassword);
      }
      r := Ok(found.value);
    }

    method IsEmailDuplicated(email: string) returns (b: bool)
      ensures b <==> exists i :: 0 <= i < |table| && table[i].email == email
    {
      b := ExistsByEmail(table, email);
    }
  }
}
