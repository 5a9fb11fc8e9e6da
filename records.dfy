/**
 * The two persisted entities, a registered user and a travel story, and the
 * password digest that stands in for bcrypt.
 */
module Records {

  /** A database identifier (a MongoDB ObjectId in the running system). */
  type Id = nat

  /** The cost factor the registration handler passes to bcrypt. */
  const SaltRounds: nat := 10

  /** bcrypt reads at most this many bytes of a password; the rest is ignored. */
  const MaxPasswordBytes: nat := 72

  /**
   * The part of a password bcrypt takes into account. Characters stand for
   * bytes here, which is exact for ASCII passwords.
   */
  function Significant(password: string): (r: string)
    ensures |r| <= MaxPasswordBytes && r <= password
    ensures |password| <= MaxPasswordBytes ==> r == password
  {
    if |password| <= MaxPasswordBytes then password else password[..MaxPasswordBytes]
  }

  /**
   * A bcrypt digest. The model keeps the significant part of the digested
   * password inside it so that verification can be stated; salt and the
   * one-way property are not modelled, and no handler reads `preimage` except
   * through `Compare`.
   */
  datatype Digest = Bcrypt(rounds: nat, preimage: string)

  /** bcrypt.hash(password, 10). */
  function Hash(password: string): Digest
  {
    Bcrypt(SaltRounds, Significant(password))
  }

  /** bcrypt.compare(password, digest). */
  predicate Compare(password: string, digest: Digest)
  {
    digest.preimage == Significant(password)
  }

  /**
   * A digest verifies the password it was made from, and exactly the passwords
   * that agree with it on their first 72 characters.
   */
  lemma CompareHash(password: string, other: string)
    ensures Compare(password, Hash(password))
    ensures Compare(other, Hash(password)) <==> Significant(other) == Significant(password)
  {
  }

  /** Two passwords that differ only after their 72nd character verify against each other's digest. */
  lemma {:induction false} LongPasswordsCollide(password: string, other: string)
    requires |password| >= MaxPasswordBytes && |other| >= MaxPasswordBytes
    requires forall k :: 0 <= k < MaxPasswordBytes ==> password[k] == other[k]
    ensures Compare(other, Hash(password))
  {
    assert Significant(password) == password[..MaxPasswordBytes];
    assert Significant(other) == other[..MaxPasswordBytes];
    assert password[..MaxPasswordBytes] == other[..MaxPasswordBytes];
  }

  /** A registered user; only the digest of the password is kept. */
  datatype User = User(id: Id, fullName: string, email: string, password: Digest)

  /** A travel story; `visitedDate` is the visit instant in milliseconds since the epoch. */
  datatype Story = Story(
    id: Id,
    userId: Id,
    title: string,
    story: string,
    visitedLocation: string,
    imageUrl: string,
    visitedDate: int,
    isFavourite: bool)

  /** The row a lookup scoped by (id, owner) accepts. */
  predicate OwnedAs(s: Story, id: Id, userId: Id)
  {
    s.id == id && s.userId == userId
  }
}
