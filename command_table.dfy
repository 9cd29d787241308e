/** The `commands` table of the F5 integration's entry point: the thirty command
    names it answers to and the client operation each one runs. */
module CommandTable {

  datatype Operation =
    | ListPoliciesOp | ApplyPolicyOp | ExportPolicyOp | DeletePolicyOp
    | ListMethodsOp | AddMethodOp | UpdateMethodOp | DeleteMethodOp
    | ListFileTypesOp | AddFileTypeOp | UpdateFileTypeOp | DeleteFileTypeOp
    | ListCookiesOp | AddCookieOp | UpdateCookieOp | DeleteCookieOp
    | ListHostnamesOp | AddHostnameOp | UpdateHostnameOp | DeleteHostnameOp
    | ListBlockingSettingsOp | UpdateBlockingSettingOp
    | ListUrlsOp | AddUrlOp | UpdateUrlOp | DeleteUrlOp
    | ListWhitelistIpsOp | AddWhitelistIpOp | UpdateWhitelistIpOp | DeleteWhitelistIpOp

  const Commands: map<string, Operation> := map[
    "f5-asm-policy-list" := ListPoliciesOp,
    "f5-asm-policy-apply" := ApplyPolicyOp,
    "f5-asm-policy-export-file" := ExportPolicyOp,
    "f5-asm-policy-delete" := DeletePolicyOp,
    "f5-asm-policy-methods-list" := ListMethodsOp,
    "f5-asm-policy-methods-add" := AddMethodOp,
    "f5-asm-policy-methods-update" := UpdateMethodOp,
    "f5-asm-policy-methods-delete" := DeleteMethodOp,
    "f5-asm-policy-file-type-list" := ListFileTypesOp,
    "f5-asm-policy-file-type-add" := AddFileTypeOp,
    "f5-asm-policy-file-type-update" := UpdateFileTypeOp,
    "f5-asm-policy-file-type-delete" := DeleteFileTypeOp,
    "f5-asm-policy-cookies-list" := ListCookiesOp,
    "f5-asm-policy-cookies-add" := AddCookieOp,
    "f5-asm-policy-cookies-update" := UpdateCookieOp,
    "f5-asm-policy-cookies-delete" := DeleteCookieOp,
    "f5-asm-policy-hostnames-list" := ListHostnamesOp,
    "f5-asm-policy-hostnames-add" := AddHostnameOp,
    "f5-asm-policy-hostnames-update" := UpdateHostnameOp,
    "f5-asm-policy-hostnames-delete" := DeleteHostnameOp,
    "f5-asm-policy-blocking-settings-list" := ListBlockingSettingsOp,
    "f5-asm-policy-blocking-settings-update" := UpdateBlockingSettingOp,
    "f5-asm-policy-urls-list" := ListUrlsOp,
    "f5-asm-policy-urls-add" := AddUrlOp,
    "f5-asm-policy-urls-update" := UpdateUrlOp,
    "f5-asm-policy-urls-delete" := DeleteUrlOp,
    "f5-asm-policy-whitelist-ips-list" := ListWhitelistIpsOp,
    "f5-asm-policy-whitelist-ips-add" := AddWhitelistIpOp,
    "f5-asm-policy-whitelist-ips-update" := UpdateWhitelistIpOp,
    "f5-asm-policy-whitelist-ips-delete" := DeleteWhitelistIpOp]

  /** The table's entries, one at a time. These per-entry lemmas, AllRegistered,
      KeysEnumerated and KeysListed restate the literal above; they exist only to keep
      each proof about the table small, so that each looks up one key at a time. */
  lemma ListPoliciesRegistered()
    ensures "f5-asm-policy-list" in Commands && Commands["f5-asm-policy-list"] == ListPoliciesOp
    ensures CommandName(ListPoliciesOp) == "f5-asm-policy-list"
  {
  }

  lemma ApplyPolicyRegistered()
    ensures "f5-asm-policy-apply" in Commands && Commands["f5-asm-policy-apply"] == ApplyPolicyOp
    ensures CommandName(ApplyPolicyOp) == "f5-asm-policy-apply"
  {
  }

  lemma ExportPolicyRegistered()
    ensures "f5-asm-policy-export-file" in Commands && Commands["f5-asm-policy-export-file"] == ExportPolicyOp
    ensures CommandName(ExportPolicyOp) == "f5-asm-policy-export-file"
  {
  }

  lemma DeletePolicyRegistered()
    ensures "f5-asm-policy-delete" in Commands && Commands["f5-asm-policy-delete"] == DeletePolicyOp
    ensures CommandName(DeletePolicyOp) == "f5-asm-policy-delete"
  {
  }

  lemma ListMethodsRegistered()
    ensures "f5-asm-policy-methods-list" in Commands && Commands["f5-asm-policy-methods-list"] == ListMethodsOp
    ensures CommandName(ListMethodsOp) == "f5-asm-policy-methods-list"
  {
  }

  lemma AddMethodRegistered()
    ensures "f5-asm-policy-methods-add" in Commands && Commands["f5-asm-policy-methods-add"] == AddMethodOp
    ensures CommandName(AddMethodOp) == "f5-asm-policy-methods-add"
  {
  }

  lemma UpdateMethodRegistered()
    ensures "f5-asm-policy-methods-update" in Commands && Commands["f5-asm-policy-methods-update"] == UpdateMethodOp
    ensures CommandName(UpdateMethodOp) == "f5-asm-policy-methods-update"
  {
  }

  lemma DeleteMethodRegistered()
    ensures "f5-asm-policy-methods-delete" in Commands && Commands["f5-asm-policy-methods-delete"] == DeleteMethodOp
    ensures CommandName(DeleteMethodOp) == "f5-asm-policy-methods-delete"
  {
  }

  lemma ListFileTypesRegistered()
    ensures "f5-asm-policy-file-type-list" in Commands && Commands["f5-asm-policy-file-type-list"] == ListFileTypesOp
    ensures CommandName(ListFileTypesOp) == "f5-asm-policy-file-type-list"
  {
  }

  lemma AddFileTypeRegistered()
    ensures "f5-asm-policy-file-type-add" in Commands && Commands["f5-asm-policy-file-type-add"] == AddFileTypeOp
    ensures CommandName(AddFileTypeOp) == "f5-asm-policy-file-type-add"
  {
  }

  lemma UpdateFileTypeRegistered()
    ensures "f5-asm-policy-file-type-update" in Commands && Commands["f5-asm-policy-file-type-update"] == UpdateFileTypeOp
    ensures CommandName(UpdateFileTypeOp) == "f5-asm-policy-file-type-update"
  {
  }

  lemma DeleteFileTypeRegistered()
    ensures "f5-asm-policy-file-type-delete" in Commands && Commands["f5-asm-policy-file-type-delete"] == DeleteFileTypeOp
    ensures CommandName(DeleteFileTypeOp) == "f5-asm-policy-file-type-delete"
  {
  }

  lemma ListCookiesRegistered()
    ensures "f5-asm-policy-cookies-list" in Commands && Commands["f5-asm-policy-cookies-list"] == ListCookiesOp
    ensures CommandName(ListCookiesOp) == "f5-asm-policy-cookies-list"
  {
  }

  lemma AddCookieRegistered()
    ensures "f5-asm-policy-cookies-add" in Commands && Commands["f5-asm-policy-cookies-add"] == AddCookieOp
    ensures CommandName(AddCookieOp) == "f5-asm-policy-cookies-add"
  {
  }

  lemma UpdateCookieRegistered()
    ensures "f5-asm-policy-cookies-update" in Commands && Commands["f5-asm-policy-cookies-update"] == UpdateCookieOp
    ensures CommandName(UpdateCookieOp) == "f5-asm-policy-cookies-update"
  {
  }

  lemma DeleteCookieRegistered()
    ensures "f5-asm-policy-cookies-delete" in Commands && Commands["f5-asm-policy-cookies-delete"] == DeleteCookieOp
    ensures CommandName(DeleteCookieOp) == "f5-asm-policy-cookies-delete"
  {
  }

  lemma ListHostnamesRegistered()
    ensures "f5-asm-policy-hostnames-list" in Commands && Commands["f5-asm-policy-hostnames-list"] == ListHostnamesOp
    ensures CommandName(ListHostnamesOp) == "f5-asm-policy-hostnames-list"
  {
  }

  lemma AddHostnameRegistered()
    ensures "f5-asm-policy-hostnames-add" in Commands && Commands["f5-asm-policy-hostnames-add"] == AddHostnameOp
    ensures CommandName(AddHostnameOp) == "f5-asm-policy-hostnames-add"
  {
  }

  lemma UpdateHostnameRegistered()
    ensures "f5-asm-policy-hostnames-update" in Commands && Commands["f5-asm-policy-hostnames-update"] == UpdateHostnameOp
    ensures CommandName(UpdateHostnameOp) == "f5-asm-policy-hostnames-update"
  {
  }

  lemma DeleteHostnameRegistered()
    ensures "f5-asm-policy-hostnames-delete" in Commands && Commands["f5-asm-policy-hostnames-delete"] == DeleteHostnameOp
    ensures CommandName(DeleteHostnameOp) == "f5-asm-policy-hostnames-delete"
  {
  }

  lemma ListBlockingSettingsRegistered()
    ensures "f5-asm-policy-blocking-settings-list" in Commands && Commands["f5-asm-policy-blocking-settings-list"] == ListBlockingSettingsOp
    ensures CommandName(ListBlockingSettingsOp) == "f5-asm-policy-blocking-settings-list"
  {
  }

  lemma UpdateBlockingSettingRegistered()
    ensures "f5-asm-policy-blocking-settings-update" in Commands && Commands["f5-asm-policy-blocking-settings-update"] == UpdateBlockingSettingOp
    ensures CommandName(UpdateBlockingSettingOp) == "f5-asm-policy-blocking-settings-update"
  {
  }

  lemma ListUrlsRegistered()
    ensures "f5-asm-policy-urls-list" in Commands && Commands["f5-asm-policy-urls-list"] == ListUrlsOp
    ensures CommandName(ListUrlsOp) == "f5-asm-policy-urls-list"
  {
  }

  lemma AddUrlRegistered()
    ensures "f5-asm-policy-urls-add" in Commands && Commands["f5-asm-policy-urls-add"] == AddUrlOp
    ensures CommandName(AddUrlOp) == "f5-asm-policy-urls-add"
  {
  }

  lemma UpdateUrlRegistered()
    ensures "f5-asm-policy-urls-update" in Commands && Commands["f5-asm-policy-urls-update"] == UpdateUrlOp
    ensures CommandName(UpdateUrlOp) == "f5-asm-policy-urls-update"
  {
  }

  lemma DeleteUrlRegistered()
    ensures "f5-asm-policy-urls-delete" in Commands && Commands["f5-asm-policy-urls-delete"] == DeleteUrlOp
    ensures CommandName(DeleteUrlOp) == "f5-asm-policy-urls-delete"
  {
  }

  lemma ListWhitelistIpsRegistered()
    ensures "f5-asm-policy-whitelist-ips-list" in Commands && Commands["f5-asm-policy-whitelist-ips-list"] == ListWhitelistIpsOp
    ensures CommandName(ListWhitelistIpsOp) == "f5-asm-policy-whitelist-ips-list"
  {
  }

  lemma AddWhitelistIpRegistered()
    ensures "f5-asm-policy-whitelist-ips-add" in Commands && Commands["f5-asm-policy-whitelist-ips-add"] == AddWhitelistIpOp
    ensures CommandName(AddWhitelistIpOp) == "f5-asm-policy-whitelist-ips-add"
  {
  }

  lemma UpdateWhitelistIpRegistered()
    ensures "f5-asm-policy-whitelist-ips-update" in Commands && Commands["f5-asm-policy-whitelist-ips-update"] == UpdateWhitelistIpOp
    ensures CommandName(UpdateWhitelistIpOp) == "f5-asm-policy-whitelist-ips-update"
  {
  }

  lemma DeleteWhitelistIpRegistered()
    ensures "f5-asm-policy-whitelist-ips-delete" in Commands && Commands["f5-asm-policy-whitelist-ips-delete"] == DeleteWhitelistIpOp
    ensures CommandName(DeleteWhitelistIpOp) == "f5-asm-policy-whitelist-ips-delete"
  {
  }

  lemma AllRegistered()
    ensures "f5-asm-policy-list" in Commands && Commands["f5-asm-policy-list"] == ListPoliciesOp
      && CommandName(ListPoliciesOp) == "f5-asm-policy-list"
    ensures "f5-asm-policy-apply" in Commands && Commands["f5-asm-policy-apply"] == ApplyPolicyOp
      && CommandName(ApplyPolicyOp) == "f5-asm-policy-apply"
    ensures "f5-asm-policy-export-file" in Commands && Commands["f5-asm-policy-export-file"] == ExportPolicyOp
      && CommandName(ExportPolicyOp) == "f5-asm-policy-export-file"
    ensures "f5-asm-policy-delete" in Commands && Commands["f5-asm-policy-delete"] == DeletePolicyOp
      && CommandName(DeletePolicyOp) == "f5-asm-policy-delete"
    ensures "f5-asm-policy-methods-list" in Commands && Commands["f5-asm-policy-methods-list"] == ListMethodsOp
      && CommandName(ListMethodsOp) == "f5-asm-policy-methods-list"
    ensures "f5-asm-policy-methods-add" in Commands && Commands["f5-asm-policy-methods-add"] == AddMethodOp
      && CommandName(AddMethodOp) == "f5-asm-policy-methods-add"
    ensures "f5-asm-policy-methods-update" in Commands && Commands["f5-asm-policy-methods-update"] == UpdateMethodOp
      && CommandName(UpdateMethodOp) == "f5-asm-policy-methods-update"
    ensures "f5-asm-policy-methods-delete" in Commands && Commands["f5-asm-policy-methods-delete"] == DeleteMethodOp
      && CommandName(DeleteMethodOp) == "f5-asm-policy-methods-delete"
    ensures "f5-asm-policy-file-type-list" in Commands && Commands["f5-asm-policy-file-type-list"] == ListFileTypesOp
      && CommandName(ListFileTypesOp) == "f5-asm-policy-file-type-list"
    ensures "f5-asm-policy-file-type-add" in Commands && Commands["f5-asm-policy-file-type-add"] == AddFileTypeOp
      && CommandName(AddFileTypeOp) == "f5-asm-policy-file-type-add"
    ensures "f5-asm-policy-file-type-update" in Commands && Commands["f5-asm-policy-file-type-update"] == UpdateFileTypeOp
      && CommandName(UpdateFileTypeOp) == "f5-asm-policy-file-type-update"
    ensures "f5-asm-policy-file-type-delete" in Commands && Commands["f5-asm-policy-file-type-delete"] == DeleteFileTypeOp
      && CommandName(DeleteFileTypeOp) == "f5-asm-policy-file-type-delete"
    ensures "f5-asm-policy-cookies-list" in Commands && Commands["f5-asm-policy-cookies-list"] == ListCookiesOp
      && CommandName(ListCookiesOp) == "f5-asm-policy-cookies-list"
    ensures "f5-asm-policy-cookies-add" in Commands && Commands["f5-asm-policy-cookies-add"] == AddCookieOp
      && CommandName(AddCookieOp) == "f5-asm-policy-cookies-add"
    ensures "f5-asm-policy-cookies-update" in Commands && Commands["f5-asm-policy-cookies-update"] == UpdateCookieOp
      && CommandName(UpdateCookieOp) == "f5-asm-policy-cookies-update"
    ensures "f5-asm-policy-cookies-delete" in Commands && Commands["f5-asm-policy-cookies-delete"] == DeleteCookieOp
      && CommandName(DeleteCookieOp) == "f5-asm-policy-cookies-delete"
    ensures "f5-asm-policy-hostnames-list" in Commands && Commands["f5-asm-policy-hostnames-list"] == ListHostnamesOp
      && CommandName(ListHostnamesOp) == "f5-asm-policy-hostnames-list"
    ensures "f5-asm-policy-hostnames-add" in Commands && Commands["f5-asm-policy-hostnames-add"] == AddHostnameOp
      && CommandName(AddHostnameOp) == "f5-asm-policy-hostnames-add"
    ensures "f5-asm-policy-hostnames-update" in Commands && Commands["f5-asm-policy-hostnames-update"] == UpdateHostnameOp
      && CommandName(UpdateHostnameOp) == "f5-asm-policy-hostnames-update"
    ensures "f5-asm-policy-hostnames-delete" in Commands && Commands["f5-asm-policy-hostnames-delete"] == DeleteHostnameOp
      && CommandName(DeleteHostnameOp) == "f5-asm-policy-hostnames-delete"
    ensures "f5-asm-policy-blocking-settings-list" in Commands && Commands["f5-asm-policy-blocking-settings-list"] == ListBlockingSettingsOp
      && CommandName(ListBlockingSettingsOp) == "f5-asm-policy-blocking-settings-list"
    ensures "f5-asm-policy-blocking-settings-update" in Commands && Commands["f5-asm-policy-blocking-settings-update"] == UpdateBlockingSettingOp
      && CommandName(UpdateBlockingSettingOp) == "f5-asm-policy-blocking-settings-update"
    ensures "f5-asm-policy-urls-list" in Commands && Commands["f5-asm-policy-urls-list"] == ListUrlsOp
      && CommandName(ListUrlsOp) == "f5-asm-policy-urls-list"
    ensures "f5-asm-policy-urls-add" in Commands && Commands["f5-asm-policy-urls-add"] == AddUrlOp
      && CommandName(AddUrlOp) == "f5-asm-policy-urls-add"
    ensures "f5-asm-policy-urls-update" in Commands && Commands["f5-asm-policy-urls-update"] == UpdateUrlOp
      && CommandName(UpdateUrlOp) == "f5-asm-policy-urls-update"
    ensures "f5-asm-policy-urls-delete" in Commands && Commands["f5-asm-policy-urls-delete"] == DeleteUrlOp
      && CommandName(DeleteUrlOp) == "f5-asm-policy-urls-delete"
    ensures "f5-asm-policy-whitelist-ips-list" in Commands && Commands["f5-asm-policy-whitelist-ips-list"] == ListWhitelistIpsOp
      && CommandName(ListWhitelistIpsOp) == "f5-asm-policy-whitelist-ips-list"
    ensures "f5-asm-policy-whitelist-ips-add" in Commands && Commands["f5-asm-policy-whitelist-ips-add"] == AddWhitelistIpOp
      && CommandName(AddWhitelistIpOp) == "f5-asm-policy-whitelist-ips-add"
    ensures "f5-asm-policy-whitelist-ips-update" in Commands && Commands["f5-asm-policy-whitelist-ips-update"] == UpdateWhitelistIpOp
      && CommandName(UpdateWhitelistIpOp) == "f5-asm-policy-whitelist-ips-update"
    ensures "f5-asm-policy-whitelist-ips-delete" in Commands && Commands["f5-asm-policy-whitelist-ips-delete"] == DeleteWhitelistIpOp
      && CommandName(DeleteWhitelistIpOp) == "f5-asm-policy-whitelist-ips-delete"
  {
    ListPoliciesRegistered();
    ApplyPolicyRegistered();
    ExportPolicyRegistered();
    DeletePolicyRegistered();
    ListMethodsRegistered();
    AddMethodRegistered();
    UpdateMethodRegistered();
    DeleteMethodRegistered();
    ListFileTypesRegistered();
    AddFileTypeRegistered();
    UpdateFileTypeRegistered();
    DeleteFileTypeRegistered();
    ListCookiesRegistered();
    AddCookieRegistered();
    UpdateCookieRegistered();
    DeleteCookieRegistered();
    ListHostnamesRegistered();
    AddHostnameRegistered();
    UpdateHostnameRegistered();
    DeleteHostnameRegistered();
    ListBlockingSettingsRegistered();
    UpdateBlockingSettingRegistered();
    ListUrlsRegistered();
    AddUrlRegistered();
    UpdateUrlRegistered();
    DeleteUrlRegistered();
    ListWhitelistIpsRegistered();
    AddWhitelistIpRegistered();
    UpdateWhitelistIpRegistered();
    DeleteWhitelistIpRegistered();
  }

  /** The table's names, one by one. */
  lemma KeysEnumerated(name: string)
    requires name in {"f5-asm-policy-list", "f5-asm-policy-apply", "f5-asm-policy-export-file", "f5-asm-policy-delete", "f5-asm-policy-methods-list", "f5-asm-policy-methods-add", "f5-asm-policy-methods-update", "f5-asm-policy-methods-delete", "f5-asm-policy-file-type-list", "f5-asm-policy-file-type-add", "f5-asm-policy-file-type-update", "f5-asm-policy-file-type-delete", "f5-asm-policy-cookies-list", "f5-asm-policy-cookies-add", "f5-asm-policy-cookies-update", "f5-asm-policy-cookies-delete", "f5-asm-policy-hostnames-list", "f5-asm-policy-hostnames-add", "f5-asm-policy-hostnames-update", "f5-asm-policy-hostnames-delete", "f5-asm-policy-blocking-settings-list", "f5-asm-policy-blocking-settings-update", "f5-asm-policy-urls-list", "f5-asm-policy-urls-add", "f5-asm-policy-urls-update", "f5-asm-policy-urls-delete", "f5-asm-policy-whitelist-ips-list", "f5-asm-policy-whitelist-ips-add", "f5-asm-policy-whitelist-ips-update", "f5-asm-policy-whitelist-ips-delete"}
    ensures name == "f5-asm-policy-list"
      || name == "f5-asm-policy-apply"
      || name == "f5-asm-policy-export-file"
      || name == "f5-asm-policy-delete"
      || name == "f5-asm-policy-methods-list"
      || name == "f5-asm-policy-methods-add"
      || name == "f5-asm-policy-methods-update"
      || name == "f5-asm-policy-methods-delete"
      || name == "f5-asm-policy-file-type-list"
      || name == "f5-asm-policy-file-type-add"
      || name == "f5-asm-policy-file-type-update"
      || name == "f5-asm-policy-file-type-delete"
      || name == "f5-asm-policy-cookies-list"
      || name == "f5-asm-policy-cookies-add"
      || name == "f5-asm-policy-cookies-update"
      || name == "f5-asm-policy-cookies-delete"
      || name == "f5-asm-policy-hostnames-list"
      || name == "f5-asm-policy-hostnames-add"
      || name == "f5-asm-policy-hostnames-update"
      || name == "f5-asm-policy-hostnames-delete"
      || name == "f5-asm-policy-blocking-settings-list"
      || name == "f5-asm-policy-blocking-settings-update"
      || name == "f5-asm-policy-urls-list"
      || name == "f5-asm-policy-urls-add"
      || name == "f5-asm-policy-urls-update"
      || name == "f5-asm-policy-urls-delete"
      || name == "f5-asm-policy-whitelist-ips-list"
      || name == "f5-asm-policy-whitelist-ips-add"
      || name == "f5-asm-policy-whitelist-ips-update"
      || name == "f5-asm-policy-whitelist-ips-delete"
  {
  }

  /** The table holds no other names. */
  lemma KeysListed(name: string)
    requires name in Commands
    ensures name in {
      "f5-asm-policy-list",
      "f5-asm-policy-apply",
      "f5-asm-policy-export-file",
      "f5-asm-policy-delete",
      "f5-asm-policy-methods-list",
      "f5-asm-policy-methods-add",
      "f5-asm-policy-methods-update",
      "f5-asm-policy-methods-delete",
      "f5-asm-policy-file-type-list",
      "f5-asm-policy-file-type-add",
      "f5-asm-policy-file-type-update",
      "f5-asm-policy-file-type-delete",
      "f5-asm-policy-cookies-list",
      "f5-asm-policy-cookies-add",
      "f5-asm-policy-cookies-update",
      "f5-asm-policy-cookies-delete",
      "f5-asm-policy-hostnames-list",
      "f5-asm-policy-hostnames-add",
      "f5-asm-policy-hostnames-update",
      "f5-asm-policy-hostnames-delete",
      "f5-asm-policy-blocking-settings-list",
      "f5-asm-policy-blocking-settings-update",
      "f5-asm-policy-urls-list",
      "f5-asm-policy-urls-add",
      "f5-asm-policy-urls-update",
      "f5-asm-policy-urls-delete",
      "f5-asm-policy-whitelist-ips-list",
      "f5-asm-policy-whitelist-ips-add",
      "f5-asm-policy-whitelist-ips-update",
      "f5-asm-policy-whitelist-ips-delete"}
  {
  }

  /** The command name under which each operation is registered. */
  function CommandName(op: Operation): string {
    match op
    case ListPoliciesOp => "f5-asm-policy-list"
    case ApplyPolicyOp => "f5-asm-policy-apply"
    case ExportPolicyOp => "f5-asm-policy-export-file"
    case DeletePolicyOp => "f5-asm-policy-delete"
    case ListMethodsOp => "f5-asm-policy-methods-list"
    case AddMethodOp => "f5-asm-policy-methods-add"
    case UpdateMethodOp => "f5-asm-policy-methods-update"
    case DeleteMethodOp => "f5-asm-policy-methods-delete"
    case ListFileTypesOp => "f5-asm-policy-file-type-list"
    case AddFileTypeOp => "f5-asm-policy-file-type-add"
    case UpdateFileTypeOp => "f5-asm-policy-file-type-update"
    case DeleteFileTypeOp => "f5-asm-policy-file-type-delete"
    case ListCookiesOp => "f5-asm-policy-cookies-list"
    case AddCookieOp => "f5-asm-policy-cookies-add"
    case UpdateCookieOp => "f5-asm-policy-cookies-update"
    case DeleteCookieOp => "f5-asm-policy-cookies-delete"
    case ListHostnamesOp => "f5-asm-policy-hostnames-list"
    case AddHostnameOp => "f5-asm-policy-hostnames-add"
    case UpdateHostnameOp => "f5-asm-policy-hostnames-update"
    case DeleteHostnameOp => "f5-asm-policy-hostnames-delete"
    case ListBlockingSettingsOp => "f5-asm-policy-blocking-settings-list"
    case UpdateBlockingSettingOp => "f5-asm-policy-blocking-settings-update"
    case ListUrlsOp => "f5-asm-policy-urls-list"
    case AddUrlOp => "f5-asm-policy-urls-add"
    case UpdateUrlOp => "f5-asm-policy-urls-update"
    case DeleteUrlOp => "f5-asm-policy-urls-delete"
    case ListWhitelistIpsOp => "f5-asm-policy-whitelist-ips-list"
    case AddWhitelistIpOp => "f5-asm-policy-whitelist-ips-add"
    case UpdateWhitelistIpOp => "f5-asm-policy-whitelist-ips-update"
    case DeleteWhitelistIpOp => "f5-asm-policy-whitelist-ips-delete"
  }

  lemma TestModuleUnregistered()
    ensures "test-module" !in Commands
  {
  }

  /** Each operation's name is registered, and runs that operation. */
  lemma CommandNameRegistered(op: Operation)
    ensures CommandName(op) in Commands && Commands[CommandName(op)] == op
  {
    AllRegistered();
  }

  /** Every registered name is the name of the operation it maps to, so the table
      is one-to-one; `test-module` is answered before the table and is not in it. */
  lemma CommandsOneToOne()
    ensures forall name :: name in Commands ==> CommandName(Commands[name]) == name
    ensures "test-module" !in Commands
  {
    TestModuleUnregistered();
    AllRegistered();
    forall name | name in Commands
      ensures CommandName(Commands[name]) == name
    {
      KeysListed(name);
      KeysEnumerated(name);
    }
  }
}
