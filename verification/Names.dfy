/** Versions, image tags and file names: instance_upgrade.go and instance_provision.go. */
module Names {
  import opened Wrappers
  import opened Text

  /** firebirdMajorVersion: the major version of an image tag, if it has one. */
  function FirebirdMajorVersion(version: string): (major: Option<nat>)
    ensures major.Some? ==> major.value > 0
  {
    match Atoi(Before(Before(version, '.'), '-'))
    case None => None
    case Some(n) => if n <= 0 then None else Some(n)
  }

  /** The tag statefulSetFirebirdVersion reads back from one container image. */
  function ImageTag(image: string): string {
    var i := LastIndex(image, ':');
    if i < 0 || '/' in image[i..] then "" else image[i + 1..]
  }

  datatype Container = Container(name: string, image: string)

  /** statefulSetFirebirdVersion: the tag of the first container named "firebird". */
  function StatefulSetFirebirdVersion(containers: seq<Container>): string {
    if containers == [] then ""
    else if containers[0].name != "firebird" then StatefulSetFirebirdVersion(containers[1..])
    else ImageTag(containers[0].image)
  }

  /** securityDatabaseFileNameForVersion. */
  function SecurityDatabaseFileName(version: string): string {
    var major := Before(version, '.');
    "security" + (if major == "" then "4" else major) + ".fdb"
  }

  /** backupFileName. */
  function BackupFileName(db: string): string {
    TrimSuffix(db, ".fdb") + ".fbk"
  }

  /** securityDatabaseBackupPattern. */
  predicate IsSecurityBackup(file: string) {
    && |file| > 12
    && file[..8] == "security"
    && HasSuffix(file, ".fbk")
    && AllDigits(file[8..|file| - 4])
  }

  /** ^security[0-9]+\.fbk$ */
  lemma SecurityBackupNames(file: string)
    ensures IsSecurityBackup(file) <==>
      exists digits :: digits != "" && AllDigits(digits) && file == "security" + digits + ".fbk"
  {
    if IsSecurityBackup(file) {
      var digits := file[8..|file| - 4];
      assert file == file[..8] + digits + file[|file| - 4..];
      assert digits != "" && AllDigits(digits) && file == "security" + digits + ".fbk";
    }
    forall digits: string | digits != "" && AllDigits(digits) && file == "security" + digits + ".fbk"
      ensures IsSecurityBackup(file) && file[8..|file| - 4] == digits
    {
      assert file[..8] == "security" && file[|file| - 4..] == ".fbk";
      assert file[8..|file| - 4] == digits;
    }
  }

  /** The shape of version the operator is used with: "<major>.<rest>", no ':' or '/'. */
  predicate Admissible(version: string) {
    var major := Before(version, '.');
    && |major| < |version|
    && 1 <= |major| <= 18
    && AllDigits(major)
    && major[0] != '0'
    && ':' !in version && '/' !in version
  }

  /** The shape of database name the operator is used with. */
  predicate AdmissibleName(db: string) {
    && HasSuffix(db, ".fdb")
    && (forall c :: c in db ==> c !in " \t\n\r/$")
    && !IsSecurityBackup(BackupFileName(db))
  }

  /** A version together with its major version, 0 standing for a tag that has none. */
  datatype Version = Version(tag: string, major: nat)

  function ReadVersion(tag: string): Version {
    match FirebirdMajorVersion(tag)
    case None => Version(tag, 0)
    case Some(n) => Version(tag, n)
  }

  /**
   * An admissible version always has a major version, the digits before the
   * first '.', and the security file name carries those same digits.
   */
  lemma AdmissibleMajor(version: string)
    requires Admissible(version)
    ensures var digits := Before(version, '.');
      && AllDigits(digits)
      && FirebirdMajorVersion(version) == Some(Value(digits))
      && ReadVersion(version).major == Value(digits)
      && Value(digits) > 0
      && SecurityDatabaseFileName(version) == "security" + digits + ".fdb"
  {
    var digits := Before(version, '.');
    assert '-' !in digits;
    BeforeWithout(digits, '-');
    ShortDigitsFit(digits);
    ValuePositive(digits);
  }

  /** The digits a tag begins with, up to its end, a '.' or a '-', are its major version. */
  lemma MajorVersions(digits: string, rest: string)
    requires 1 <= |digits| <= 18 && AllDigits(digits) && digits[0] != '0'
    ensures FirebirdMajorVersion(digits) == Some(Value(digits))
    ensures FirebirdMajorVersion(digits + "." + rest) == Some(Value(digits))
    ensures FirebirdMajorVersion(digits + "-" + rest) == Some(Value(digits))
  {
    assert '.' !in digits && '-' !in digits;
    BeforeWithout(digits, '.');
    BeforeWithout(digits, '-');
    BeforeAt(digits, '.', rest);
    BeforeAt(digits, '-', rest);
    BeforeTwice(digits, rest);
    ShortDigitsFit(digits);
    ValuePositive(digits);
  }

  lemma {:induction false} BeforeTwice(head: string, rest: string)
    requires '.' !in head && '-' !in head
    ensures Before(Before(head + "-" + rest, '.'), '-') == head
  {
    var tag := head + "-" + rest;
    if head == "" {
      assert tag[0] == '-';
    } else {
      assert tag[1..] == head[1..] + "-" + rest;
      BeforeTwice(head[1..], rest);
    }
  }

  /** A tag that begins with none, like "latest", has no major version. */
  lemma NoMajorVersion(version: string)
    requires version == "" || (!IsDigit(version[0]) && version[0] != '+')
    ensures FirebirdMajorVersion(version) == None
  {
    if version != "" && version[0] == '-' {
      assert Before(Before(version, '.'), '-') == "";
    }
  }

  /** An image without a tag has none to tell, a registry's port being no tag. */
  lemma UntaggedImages(registry: string, path: string)
    requires ':' !in path
    ensures ImageTag(path) == ""
    ensures '/' in path ==> ImageTag(registry + ":" + path) == ""
  {
    var image := registry + ":" + path;
    var i := LastIndex(image, ':');
    assert image[|registry|] == ':';
    assert forall k :: |registry| < k < |image| ==> image[k] == path[k - |registry| - 1];
    if '/' in path {
      var k :| 0 <= k < |path| && path[k] == '/';
      assert image[|registry| + 1 + k] == '/';
      assert image[i..][|registry| + 1 + k - i] == '/';
    }
  }

  /** Reading the tag back from "<image>:<version>" returns the version, whatever the image. */
  lemma ImageTagRoundTrip(image: string, version: string)
    requires ':' !in version && '/' !in version
    ensures ImageTag(image + ":" + version) == version
  {
    var full := image + ":" + version;
    var i := LastIndex(full, ':');
    assert full[|image|] == ':';
    assert i >= |image|;
    assert i == |image|;
    assert full[i..] == ":" + version;
    assert full[i + 1..] == version;
  }

  /** What mutateStatefulSet writes, statefulSetFirebirdVersion reads back, whatever other containers there are. */
  lemma {:induction false} StatefulSetVersionRoundTrip(before: seq<Container>, after: seq<Container>, image: string, version: string)
    requires Admissible(version) && forall c <- before :: c.name != "firebird"
    ensures StatefulSetFirebirdVersion(before + [Container("firebird", image + ":" + version)] + after) == version
  {
    var own := Container("firebird", image + ":" + version);
    ImageTagRoundTrip(image, version);
    if before != [] {
      assert (before + [own] + after)[1..] == before[1..] + [own] + after;
      StatefulSetVersionRoundTrip(before[1..], after, image, version);
    }
  }

  /** Two admissible databases never share a backup file, nor a security database's. */
  lemma BackupNamesAreDistinct(a: string, b: string, version: string)
    requires AdmissibleName(a) && AdmissibleName(b) && Admissible(version)
    ensures BackupFileName(a) == BackupFileName(b) ==> a == b
    ensures BackupFileName(a) != BackupFileName(SecurityDatabaseFileName(version))
    ensures IsSecurityBackup(BackupFileName(SecurityDatabaseFileName(version)))
  {
    var stemA, stemB := a[..|a| - 4], b[..|b| - 4];
    assert a == stemA + ".fdb" && b == stemB + ".fdb";
    if BackupFileName(a) == BackupFileName(b) {
      assert (stemA + ".fbk")[..|stemA + ".fbk"| - 4] == stemA;
      assert (stemB + ".fbk")[..|stemB + ".fbk"| - 4] == stemB;
    }
    AdmissibleMajor(version);
    var digits := Before(version, '.');
    var security := SecurityDatabaseFileName(version);
    assert security[..|security| - 4] == "security" + digits;
    var file := BackupFileName(security);
    assert file == "security" + digits + ".fbk";
    assert file[..8] == "security" && file[8..|file| - 4] == digits;
    assert file[|file| - 4..] == ".fbk";
  }
}
