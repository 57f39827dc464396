/** The member record (the `first_ppt_member` table row) and the sign-up form
    that carries the same fields from the client. */
module MemberEntity {
  import opened Common

  /** One row of the member table. `id` is the generated primary key. */
  datatype Member = Member(
    id: int,
    name: string,
    phoneNumber: string,
    email: string,
    password: string,
    storeName: string,
    storeMangerName: string,
    storeAddress: string,
    region: string,
    officeName: string,
    officeNumber: string)

  /** The sign-up request body. `id` is whatever key the JSON body names;
      None stands for a null or absent key. */
  datatype MemberDto = MemberDto(
    id: Option<int>,
    name: string,
    phoneNumber: string,
    email: string,
    password: string,
    storeName: string,
    storeMangerName: string,
    storeAddress: string,
    region: string,
    officeName: string,
    officeNumber: string)

  /** The entity built from a request under the key `id` it is saved with:
      every other field copied, the password verbatim. */
  function FromDto(dto: MemberDto, id: int): (m: Member)
    ensures m.id == id && m.email == dto.email && m.password == dto.password
    ensures ToDto(m) == dto.(id := Some(id))
  {
    Member(id, dto.name, dto.phoneNumber, dto.email, dto.password, dto.storeName,
           dto.storeMangerName, dto.storeAddress, dto.region, dto.officeName, dto.officeNumber)
  }

  /** A row as a request body naming its key. */
  function ToDto(m: Member): MemberDto {
    MemberDto(Some(m.id), m.name, m.phoneNumber, m.email, m.password, m.storeName,
              m.storeMangerName, m.storeAddress, m.region, m.officeName, m.officeNumber)
  }
}
