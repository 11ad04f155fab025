/** The certifications editor: add, edit and remove certifications, with a
    list of open entries that starts with all of them. */
module CertificationsForm {
  import opened Seqs
  import opened ResumeTypes
  import opened Accordion

  /** The list being edited and the ids of the open entries. */
  datatype CertificationsState = CertificationsState(data: seq<Certification>, openItems: seq<string>)

  function Ids(data: seq<Certification>): (r: seq<string>)
    ensures |r| == |data| && forall i :: 0 <= i < |data| ==> r[i] == data[i].id
  {
    Map(data, (c: Certification) => c.id)
  }

  /** `openItems` starts as the id of every certification. */
  function InitialState(data: seq<Certification>): (st: CertificationsState)
    ensures st.data == data
    ensures forall id :: id in st.openItems <==> exists i :: 0 <= i < |data| && data[i].id == id
  {
    CertificationsState(data, Ids(data))
  }

  /** A blank entry: empty expiry and credential id. */
  function BlankCertification(id: string): (c: Certification)
    ensures c.id == id && c.name == "" && c.issuer == "" && c.date == ""
    ensures c.expiry == Some("") && c.credentialId == Some("")
  {
    Certification(id, "", "", "", Some(""), Some(""))
  }

  /** `addCertification()` with `id` for `Date.now()`: a blank entry is
      appended and marked open. */
  function AddCertification(st: CertificationsState, id: string): (r: CertificationsState)
    ensures |r.data| == |st.data| + 1 && r.data[..|st.data|] == st.data
    ensures r.data[|st.data|] == BlankCertification(id)
    ensures r.openItems == st.openItems + [id]
  {
    CertificationsState(st.data + [BlankCertification(id)], st.openItems + [id])
  }

  /** `removeCertification(id)`: the id leaves both the list and the open
      ids; everything else stays, in order. */
  function RemoveCertification(st: CertificationsState, id: string): (r: CertificationsState)
    ensures forall i :: 0 <= i < |r.data| ==> r.data[i].id != id
    ensures Interleaving(r.data, Filter(st.data, (c: Certification) => c.id == id), st.data)
    ensures id !in r.openItems
    ensures forall x :: x != id ==> (x in r.openItems <==> x in st.openItems)
    ensures Subseq(r.openItems, st.openItems)
  {
    FilterPartition(st.data, (c: Certification) => c.id != id, (c: Certification) => c.id == id);
    FilterIsSubseq(st.openItems, (x: string) => x != id);
    CertificationsState(Filter(st.data, (c: Certification) => c.id != id),
                        Filter(st.openItems, (x: string) => x != id))
  }

  /** A header click opens or closes exactly that certification. */
  function ToggleItem(st: CertificationsState, id: string): (r: CertificationsState)
    ensures r.data == st.data
    ensures id in r.openItems <==> id !in st.openItems
    ensures forall x :: x != id ==> (x in r.openItems <==> x in st.openItems)
  {
    st.(openItems := ToggleOpen(st.openItems, id))
  }

  /** `keyof Certification`; every input writes a string, so the two
      optional fields become present. */
  datatype CertificationKey = Id | Name | Issuer | Date | Expiry | CredentialId

  /** `{ ...c, [field]: value }`: the named field takes the value and every
      other field keeps its own. */
  function SetField(c: Certification, k: CertificationKey, value: string): (r: Certification)
    ensures r.id == if k == Id then value else c.id
    ensures r.name == if k == Name then value else c.name
    ensures r.issuer == if k == Issuer then value else c.issuer
    ensures r.date == if k == Date then value else c.date
    ensures r.expiry == if k == Expiry then Some(value) else c.expiry
    ensures r.credentialId == if k == CredentialId then Some(value) else c.credentialId
  {
    match k
    case Id => c.(id := value)
    case Name => c.(name := value)
    case Issuer => c.(issuer := value)
    case Date => c.(date := value)
    case Expiry => c.(expiry := Some(value))
    case CredentialId => c.(credentialId := Some(value))
  }

  /** `updateCertification(id, field, value)`: the field is set on every
      entry with that id; every other entry, and the order, stay. */
  function UpdateCertification(data: seq<Certification>, id: string, k: CertificationKey, value: string)
    : (r: seq<Certification>)
    ensures |r| == |data|
    ensures forall i :: 0 <= i < |data| && data[i].id != id ==> r[i] == data[i]
    ensures forall i :: 0 <= i < |data| && data[i].id == id ==> r[i] == SetField(data[i], k, value)
  {
    UpdateWhere(data, (c: Certification) => c.id == id, (c: Certification) => SetField(c, k, value))
  }

  /** Of two writes to the same field only the later one is visible, as
      long as the field is not the id itself. */
  lemma UpdateCertificationTwice(data: seq<Certification>, id: string, k: CertificationKey, v: string, w: string)
    requires k != Id
    ensures UpdateCertification(UpdateCertification(data, id, k, v), id, k, w)
            == UpdateCertification(data, id, k, w)
  {
    var a := UpdateCertification(UpdateCertification(data, id, k, v), id, k, w);
    var b := UpdateCertification(data, id, k, w);
    assert forall i :: 0 <= i < |a| ==> a[i] == b[i];
  }

  /** Adding then removing a certification with a fresh id, closed before,
      restores the list and the open ids. */
  lemma AddThenRemove(st: CertificationsState, id: string)
    requires id !in Ids(st.data) && id !in st.openItems
    ensures RemoveCertification(AddCertification(st, id), id) == st
  {
    assert forall i :: 0 <= i < |st.data| ==> st.data[i].id != id;
    FilterAppend(st.data, BlankCertification(id), (c: Certification) => c.id != id);
    FilterAllPass(st.data, (c: Certification) => c.id != id);
    FilterAppend(st.openItems, id, (x: string) => x != id);
    FilterAllPass(st.openItems, (x: string) => x != id);
  }
}
