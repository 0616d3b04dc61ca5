/** Field validation of an AzureMachine's spec: the SSH key, the
    user-assigned identities and the OS disk. Each validator returns the list
    of field errors it found (field.ErrorList). */
module Validation {
  import opened Base64

  /** A field path, e.g. spec.osDisk.DiskSizeGB as ["spec", "osDisk", "DiskSizeGB"]. */
  type Path = seq<string>

  function Child(p: Path, name: string): Path { p + [name] }

  datatype FieldError =
    | Required(field: Path, detail: string)
    | Invalid(field: Path, value: string, detail: string)

  /** Some error in the list is about the given field. */
  predicate Reports(errs: seq<FieldError>, field: Path) {
    exists i | 0 <= i < |errs| :: errs[i].field == field
  }

  const NotBase64Detail: string := "the SSH public key is not properly base64 encoded"
  const NotValidKeyDetail: string := "the SSH public key is not valid"

  /** ValidateSSHKey. `parseAuthorizedKey` stands for ssh.ParseAuthorizedKey
      (true when it accepts the bytes); it is only consulted on bytes that
      decoded. */
  function ValidateSSHKey(sshKey: string, path: Path, parseAuthorizedKey: seq<byte> -> bool): (errs: seq<FieldError>)
    ensures |errs| <= 1
    ensures errs == [] <==> IsStdBase64(sshKey) && parseAuthorizedKey(Decode(sshKey).value)
    ensures !IsStdBase64(sshKey) ==> errs == [Required(path, NotBase64Detail)]
    ensures IsStdBase64(sshKey) && errs != [] ==> errs == [Required(path, NotValidKeyDetail)]
  {
    match Decode(sshKey)
    case None => [Required(path, NotBase64Detail)]
    case Some(decoded) =>
      if !parseAuthorizedKey(decoded) then [Required(path, NotValidKeyDetail)] else []
  }

  /** A key that is the base64 of bytes the SSH parser accepts passes
      validation; one the parser rejects fails with "not valid", never with
      the base64 error. */
  lemma EncodedKeyValidates(key: seq<byte>, path: Path, parseAuthorizedKey: seq<byte> -> bool)
    ensures parseAuthorizedKey(key) ==> ValidateSSHKey(Encode(key), path, parseAuthorizedKey) == []
    ensures !parseAuthorizedKey(key) ==>
      ValidateSSHKey(Encode(key), path, parseAuthorizedKey) == [Required(path, NotValidKeyDetail)]
  {
    DecodeEncode(key);
  }

  const VMIdentityUserAssigned: string := "UserAssigned"

  const MissingIdentitiesDetail := "must be specified for the 'UserAssigned' identity type"

  datatype UserAssignedIdentity = UserAssignedIdentity(providerID: string)

  /** ValidateUserAssignedIdentity. */
  function ValidateUserAssignedIdentity(identityType: string, identities: seq<UserAssignedIdentity>, path: Path)
    : (errs: seq<FieldError>)
    ensures |errs| <= 1
    ensures errs != [] <==> identityType == VMIdentityUserAssigned && |identities| == 0
    ensures errs != [] ==> errs[0] == Required(path, MissingIdentitiesDetail)
  {
    if identityType == VMIdentityUserAssigned && |identities| == 0 then
      [Required(path, MissingIdentitiesDetail)]
    else []
  }

  const AllowedStorageAccountTypes: seq<string> :=
    ["Premium_LRS", "Standard_LRS", "StandardSSD_LRS", "UltraSSD_LRS"]

  const EmptyStorageAccountTypeDetail := "the Storage Account Type for Managed Disk cannot be empty"
  const InvalidStorageAccountTypeDetail := "allowed values are [Premium_LRS Standard_LRS StandardSSD_LRS UltraSSD_LRS]"

  function StorageAccountTypePath(path: Path): Path {
    Child(Child(path, "ManagedDisk"), "StorageAccountType")
  }

  /** validateStorageAccountType: empty is a Required error, a value outside
      the four allowed ones an Invalid error, and an allowed one no error. */
  function ValidateStorageAccountType(storageAccountType: string, path: Path): (errs: seq<FieldError>)
    ensures |errs| <= 1
    ensures errs == [] <==> storageAccountType in AllowedStorageAccountTypes
    ensures storageAccountType == "" ==> errs[0].Required?
    ensures storageAccountType != "" && errs != [] ==> errs[0].Invalid?
    ensures forall e | e in errs :: e.field == StorageAccountTypePath(path)
  {
    var field := StorageAccountTypePath(path);
    if storageAccountType == "" then
      [Required(field, EmptyStorageAccountTypeDetail)]
    else if storageAccountType in AllowedStorageAccountTypes then []
    else [Invalid(field, "", InvalidStorageAccountTypeDetail)]
  }

  datatype ManagedDisk = ManagedDisk(storageAccountType: string)
  datatype OSDisk = OSDisk(osType: string, diskSizeGB: int, managedDisk: ManagedDisk)

  const MaxDiskSizeGB: int := 2048
  const DiskSizeDetail := "the Disk size should be a value between 1 and 2048"
  const EmptyOSTypeDetail := "the OS type cannot be empty"

  lemma ReportsConcat(a: seq<FieldError>, b: seq<FieldError>, field: Path)
    ensures Reports(a + b, field) <==> Reports(a, field) || Reports(b, field)
  {
    if Reports(a, field) {
      var i :| 0 <= i < |a| && a[i].field == field;
      assert (a + b)[i] == a[i];
    }
    if Reports(b, field) {
      var i :| 0 <= i < |b| && b[i].field == field;
      assert (a + b)[|a| + i] == b[i];
    }
    if Reports(a + b, field) {
      var i :| 0 <= i < |a + b| && (a + b)[i].field == field;
      if i >= |a| { assert b[i - |a|] == (a + b)[i]; }
    }
  }

  function DiskSizeErrors(osDisk: OSDisk, path: Path): seq<FieldError> {
    if osDisk.diskSizeGB <= 0 || osDisk.diskSizeGB > MaxDiskSizeGB then
      [Invalid(Child(path, "DiskSizeGB"), "", DiskSizeDetail)]
    else []
  }

  function OSTypeErrors(osDisk: OSDisk, path: Path): seq<FieldError> {
    if osDisk.osType == "" then [Required(Child(path, "OSType"), EmptyOSTypeDetail)] else []
  }

  lemma PathsDiffer(path: Path)
    ensures Child(path, "DiskSizeGB") != Child(path, "OSType")
    ensures Child(path, "DiskSizeGB") != StorageAccountTypePath(path)
    ensures Child(path, "OSType") != StorageAccountTypePath(path)
  {
    assert |Child(path, "DiskSizeGB")| < |StorageAccountTypePath(path)|;
    assert Child(path, "DiskSizeGB")[|path|] != Child(path, "OSType")[|path|];
  }

  lemma ReportsSingle(errs: seq<FieldError>, field: Path, f: Path)
    requires |errs| <= 1 && forall e | e in errs :: e.field == field
    ensures Reports(errs, f) <==> errs != [] && f == field
  {
    if errs != [] { assert errs[0] in errs; }
  }

  /** ValidateOSDisk: the size check, the OS type check and the storage
      account type check, each adding its own errors. */
  function ValidateOSDisk(osDisk: OSDisk, path: Path): (errs: seq<FieldError>)
    ensures |errs| <= 3
    ensures Reports(errs, Child(path, "DiskSizeGB")) <==> osDisk.diskSizeGB <= 0 || osDisk.diskSizeGB > MaxDiskSizeGB
    ensures Reports(errs, Child(path, "OSType")) <==> osDisk.osType == ""
    ensures Reports(errs, StorageAccountTypePath(path))
            <==> osDisk.managedDisk.storageAccountType !in AllowedStorageAccountTypes
    ensures errs == [] <==> 1 <= osDisk.diskSizeGB <= MaxDiskSizeGB && osDisk.osType != ""
                            && osDisk.managedDisk.storageAccountType in AllowedStorageAccountTypes
  {
    var sizeErrs := DiskSizeErrors(osDisk, path);
    var typeErrs := OSTypeErrors(osDisk, path);
    var storageErrs := ValidateStorageAccountType(osDisk.managedDisk.storageAccountType, path);
    PathsDiffer(path);
    OSDiskReports(osDisk, path, Child(path, "DiskSizeGB"));
    OSDiskReports(osDisk, path, Child(path, "OSType"));
    OSDiskReports(osDisk, path, StorageAccountTypePath(path));
    sizeErrs + typeErrs + storageErrs
  }

  lemma OSDiskReports(osDisk: OSDisk, path: Path, f: Path)
    ensures var sizeErrs, typeErrs, storageErrs :=
              DiskSizeErrors(osDisk, path), OSTypeErrors(osDisk, path),
              ValidateStorageAccountType(osDisk.managedDisk.storageAccountType, path);
            Reports(sizeErrs + typeErrs + storageErrs, f) <==>
              (sizeErrs != [] && f == Child(path, "DiskSizeGB")) || (typeErrs != [] && f == Child(path, "OSType"))
              || (storageErrs != [] && f == StorageAccountTypePath(path))
  {
    ReportsAll(DiskSizeErrors(osDisk, path), OSTypeErrors(osDisk, path),
      ValidateStorageAccountType(osDisk.managedDisk.storageAccountType, path),
      Child(path, "DiskSizeGB"), Child(path, "OSType"), StorageAccountTypePath(path), f);
  }

  lemma ReportsAll(a: seq<FieldError>, b: seq<FieldError>, c: seq<FieldError>, fa: Path, fb: Path, fc: Path, f: Path)
    requires |a| <= 1 && forall e | e in a :: e.field == fa
    requires |b| <= 1 && forall e | e in b :: e.field == fb
    requires |c| <= 1 && forall e | e in c :: e.field == fc
    ensures Reports(a + b + c, f) <==> (a != [] && f == fa) || (b != [] && f == fb) || (c != [] && f == fc)
  {
    ReportsConcat(a, b, f);
    ReportsConcat(a + b, c, f);
    ReportsSingle(a, fa, f);
    ReportsSingle(b, fb, f);
    ReportsSingle(c, fc, f);
  }
}
