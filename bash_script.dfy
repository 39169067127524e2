/** The Bourne-family renderer: how the bash shell writes each postscript
    intent as script text. Every statement is an `export` or an `unset` and
    ends in one newline; paths go between single quotes exactly as given. */
module BashScript {
  import opened Postscripts
  import Semver

  /** ASCII upper-casing of one character. */
  function UpperChar(c: char): (u: char)
    ensures 'a' <= c <= 'z' ==> 'A' <= u <= 'Z' && u as int == c as int - 32
    ensures !('a' <= c <= 'z') ==> u == c
  {
    if 'a' <= c <= 'z' then (c as int - 32) as char else c
  }

  /** Upper-cases a string character by character. */
  function Upper(s: string): (r: string)
    ensures |r| == |s|
    ensures forall i :: 0 <= i < |s| ==> r[i] == UpperChar(s[i])
  {
    if s == [] then [] else [UpperChar(s[0])] + Upper(s[1..])
  }

  /** The environment variable that carries a tool's version. */
  function VersionVariable(tool: string): string
  {
    "NOTION_" + Upper(tool) + "_VERSION"
  }

  /** The statement that points PATH at `path`, quoted but not escaped. */
  function ExportPath(path: string): string
  {
    "export PATH='" + path + "'\n"
  }

  const ExportHome: string := "export NOTION_HOME=\"${HOME}/.notion\"\n"

  const UnsetHome: string := "unset NOTION_HOME\n"

  /** The script text for one intent. */
  function Compile(p: Postscript): (r: string)
    ensures 2 <= |r| && r[|r| - 1] == '\n' && r[|r| - 2] != '\n'
  {
    match p
    case Activate(path) => ExportPath(path) + ExportHome
    case Deactivate(path) => ExportPath(path) + UnsetHome
    case ToolVersion(tool, version) =>
      "export " + VersionVariable(tool) + "=" + Semver.ToString(version) + "\n"
  }

  /** Upper-casing twice is upper-casing once. */
  lemma UpperIdempotent(s: string)
    ensures Upper(Upper(s)) == Upper(s)
  {
  }

  /** The PATH statement for the plain path of the unit test. */
  lemma PlainExportPath()
    ensures ExportPath("some:path") == "export PATH='some:path'\n"
  {
    assert "export PATH='" + "some:path" == "export PATH='some:path";
  }

  /** The PATH statement for the quoted path of the unit test. */
  lemma QuotedExportPath()
    ensures ExportPath("/path:/with:/single'quotes'") == "export PATH='/path:/with:/single'quotes''\n"
  {
    assert "export PATH='" + "/path:/with:/single'quotes'" == "export PATH='/path:/with:/single'quotes'";
    assert "export PATH='/path:/with:/single'quotes'" + "'\n" == "export PATH='/path:/with:/single'quotes''\n";
  }

  /** The version variable for the tool of the unit test. */
  lemma TestToolVariable()
    ensures VersionVariable("test") == "NOTION_TEST_VERSION"
  {
    assert Upper("test") == "TEST";
    assert "NOTION_" + "TEST" + "_VERSION" == "NOTION_TEST_VERSION";
  }

  /** The text of the version of the unit test. */
  lemma TestVersionText()
    ensures Semver.ToString(Semver.Version(2, 4, 5)) == "2.4.5"
  {
    assert Semver.NatToString(2) == "2" && Semver.NatToString(4) == "4" && Semver.NatToString(5) == "5";
  }

  /** The renderings the unit test pins down. */
  lemma DeactivateTestCase()
    ensures Compile(Deactivate("some:path")) == "export PATH='some:path'\nunset NOTION_HOME\n"
  {
    PlainExportPath();
    assert "export PATH='some:path'\n" + UnsetHome == "export PATH='some:path'\nunset NOTION_HOME\n";
  }

  /** A single quote inside the path is copied as it is, not escaped. */
  lemma QuotedDeactivateTestCase()
    ensures Compile(Deactivate("/path:/with:/single'quotes'"))
         == "export PATH='/path:/with:/single'quotes''\nunset NOTION_HOME\n"
  {
    QuotedExportPath();
    assert "export PATH='/path:/with:/single'quotes''\n" + UnsetHome
        == "export PATH='/path:/with:/single'quotes''\nunset NOTION_HOME\n";
  }

  /** The test's `Version::parse("2.4.5")` is 2.4.5, see `Semver.ParseTestVersion`. */
  lemma ToolVersionTestCase()
    ensures Compile(ToolVersion("test", Semver.Version(2, 4, 5))) == "export NOTION_TEST_VERSION=2.4.5\n"
  {
    TestToolVariable();
    TestVersionText();
    assert "export " + "NOTION_TEST_VERSION" == "export NOTION_TEST_VERSION";
    assert "export NOTION_TEST_VERSION" + "=" + "2.4.5" + "\n" == "export NOTION_TEST_VERSION=2.4.5\n";
  }

  lemma ActivateTestCase()
    ensures Compile(Activate("some:path")) == "export PATH='some:path'\nexport NOTION_HOME=\"${HOME}/.notion\"\n"
  {
    PlainExportPath();
    HomeStatementParts();
    var a, b, c := "export PATH='some:path'\n", "export NOTION_HOME=", "\"${HOME}/.notion\"\n";
    assert a + (b + c) == (a + b) + c;
    assert a + b == "export PATH='some:path'\nexport NOTION_HOME=";
    assert "export PATH='some:path'\nexport NOTION_HOME=" + c
        == "export PATH='some:path'\nexport NOTION_HOME=\"${HOME}/.notion\"\n";
  }

  /** The NOTION_HOME statement is the assignment followed by the quoted word. */
  lemma HomeStatementParts()
    ensures ExportHome == "export NOTION_HOME=" + "\"${HOME}/.notion\"\n"
  {
  }
}
