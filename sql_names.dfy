/** How PostgreSQL resolves the column names in the statements of the
    PostgreSQL backend: a quoted identifier is taken as written, an unquoted
    one is folded to lower case (PostgreSQL documentation, section 4.1.1,
    "Identifiers and Key Words"). The `links` table's columns are the ones its
    INSERT statement names, all quoted, plus `id`. */
module SqlNames {
  import opened Entities
  import opened Text
  import opened Tables

  /** An identifier of a statement: the text and whether it is quoted. */
  datatype Identifier = Identifier(text: string, quoted: bool)

  /** The column name an identifier denotes. */
  function Resolve(ident: Identifier): (name: string)
    ensures ident.quoted ==> name == ident.text
    ensures !ident.quoted ==> NoUpper(name) && |name| == |ident.text|
    ensures !ident.quoted ==> forall i :: 0 <= i < |name| ==> name[i] == LowerChar(ident.text[i])
  {
    if ident.quoted then ident.text else ToLower(ident.text)
  }

  /** The columns of `links`, as the INSERT statement creates them. */
  const LinkColumns: set<string> :=
    {"id", "title", "url", "categoryId", "createdDate", "imageUrl", "aiHint", "description", "faviconUrl"}

  /** The link column the join names in its select list and its ON clause
      (`l.categoryId`), as written: unquoted. The join's other identifiers are
      either quoted or written in lower case, so they resolve to columns. */
  const JoinKeyAsWritten := Identifier("categoryId", false)

  /** The same column quoted, like every other mixed-case column. */
  const JoinKeyCorrected := Identifier("categoryId", true)

  /** The join query: PostgreSQL rejects it when the column it joins on does
      not exist, and otherwise returns one row per matching (link, category)
      pair. */
  function RunJoin(joinKey: Identifier, ls: seq<LinkItem>, cs: seq<Category>): Result<seq<LinkItem>, Error>
  {
    if Resolve(joinKey) in LinkColumns then Success(JoinLinks(ls, cs)) else Failure(StatementRejected)
  }

  /** As written, the unquoted `l.categoryId` denotes `categoryid`, which
      `links` does not have, so the join is rejected whatever the tables hold. */
  lemma JoinAsWrittenRejected(ls: seq<LinkItem>, cs: seq<Category>)
    ensures RunJoin(JoinKeyAsWritten, ls, cs) == Failure(StatementRejected)
  {
    var folded := Resolve(JoinKeyAsWritten);
    assert folded[0] == LowerChar('c') == 'c';
    assert folded[8] == LowerChar('I') == 'i';
    NotALinkColumn(folded);
  }

  /** The only link columns of ten characters are `categoryId` and `faviconUrl`;
      a name that starts with `c` and has `i` at offset 8 is neither. */
  lemma NotALinkColumn(name: string)
    requires |name| == 10 && name[0] == 'c' && name[8] == 'i'
    ensures name !in LinkColumns
  {
    assert name != "categoryId" by { assert "categoryId"[8] == 'I'; }
    assert name != "faviconUrl" by { assert "faviconUrl"[0] == 'f'; }
  }

  /** With `categoryId` quoted the join is accepted and yields the joined rows. */
  lemma JoinCorrectedAccepted(ls: seq<LinkItem>, cs: seq<Category>)
    ensures RunJoin(JoinKeyCorrected, ls, cs) == Success(JoinLinks(ls, cs))
  {
  }
}
