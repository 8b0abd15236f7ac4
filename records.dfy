/**
 * The record shapes the dashboard consumes: a category record (`Kategorien`)
 * and an expense record (`Ausgaben`). Optional fields of the backend become
 * `Option` values; `null` and `undefined` are both `None`. Amounts are
 * integer cents.
 */
module Records {

  datatype Option<T> = None | Some(value: T) {
    /** The value, or `default` when absent. */
    function GetOr(default: T): T {
      match this
      case Some(v) => v
      case None => default
    }
  }

  datatype KategorieFields = KategorieFields(
    kategoriename: Option<string>,
    beschreibung: Option<string>)

  /** A category record. */
  datatype Kategorie = Kategorie(
    recordId: string,
    createdAt: string,
    updatedAt: Option<string>,
    fields: KategorieFields)

  datatype AusgabeFields = AusgabeFields(
    datum: Option<string>,        // "YYYY-MM-DD" or an ISO timestamp
    beleg: Option<string>,
    notizen: Option<string>,
    kategorie: Option<string>,    // lookup URL of a category record
    beschreibung: Option<string>,
    betrag: Option<int>)          // cents

  /** An expense record. */
  datatype Ausgabe = Ausgabe(
    recordId: string,
    createdAt: string,
    updatedAt: Option<string>,
    fields: AusgabeFields)
}
