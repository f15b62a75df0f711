/**
 * The application's configuration check: the four Odoo settings read from
 * the deployment's secrets, and whether all of them are present and
 * non-empty.
 */
module AppConfig {
  import opened Common

  /** The credentials dictionary; a setting missing from the secrets is None. */
  datatype Credentials = Credentials(
    url: Option<string>, db: Option<string>, username: Option<string>, password: Option<string>)

  /** `secrets.get(key)`. */
  function SecretsGet(secrets: map<string, string>, key: string): Option<string>
  {
    if key in secrets then Some(secrets[key]) else None
  }

  /** `get_odoo_credentials()`. */
  function GetOdooCredentials(secrets: map<string, string>): (c: Credentials)
    ensures c.url.Some? <==> "ODOO_URL" in secrets
    ensures c.db.Some? <==> "ODOO_DB" in secrets
    ensures c.username.Some? <==> "ODOO_USERNAME" in secrets
    ensures c.password.Some? <==> "ODOO_PASSWORD" in secrets
    ensures c.url.Some? ==> c.url.value == secrets["ODOO_URL"]
    ensures c.db.Some? ==> c.db.value == secrets["ODOO_DB"]
    ensures c.username.Some? ==> c.username.value == secrets["ODOO_USERNAME"]
    ensures c.password.Some? ==> c.password.value == secrets["ODOO_PASSWORD"]
  {
    Credentials(
      SecretsGet(secrets, "ODOO_URL"),
      SecretsGet(secrets, "ODOO_DB"),
      SecretsGet(secrets, "ODOO_USERNAME"),
      SecretsGet(secrets, "ODOO_PASSWORD"))
  }

  /** `credentials.values()`, in insertion order. */
  function Values(c: Credentials): seq<Option<string>>
  {
    [c.url, c.db, c.username, c.password]
  }

  /** Python's `all()` over optional strings, scanning left to right. */
  function All(vs: seq<Option<string>>): (r: bool)
    ensures r <==> forall i :: 0 <= i < |vs| ==> Truthy(vs[i])
  {
    if vs == [] then true
    else if !Truthy(vs[0]) then false
    else All(vs[1..])
  }

  /** A setting that is present and non-empty. */
  predicate Configured(secrets: map<string, string>, key: string)
  {
    key in secrets && secrets[key] != ""
  }

  /** `validate_odoo_credentials()`: all four settings are configured. */
  function ValidateOdooCredentials(secrets: map<string, string>): (ok: bool)
    ensures ok <==>
      && Configured(secrets, "ODOO_URL")
      && Configured(secrets, "ODOO_DB")
      && Configured(secrets, "ODOO_USERNAME")
      && Configured(secrets, "ODOO_PASSWORD")
  {
    var vs := Values(GetOdooCredentials(secrets));
    assert Truthy(vs[0]) == Configured(secrets, "ODOO_URL");
    assert Truthy(vs[1]) == Configured(secrets, "ODOO_DB");
    assert Truthy(vs[2]) == Configured(secrets, "ODOO_USERNAME");
    assert Truthy(vs[3]) == Configured(secrets, "ODOO_PASSWORD");
    All(vs)
  }

  /** An empty password is enough to refuse the configuration. */
  lemma EmptyPasswordRefused(secrets: map<string, string>)
    requires "ODOO_PASSWORD" in secrets && secrets["ODOO_PASSWORD"] == ""
    ensures !ValidateOdooCredentials(secrets)
  {
  }
}
