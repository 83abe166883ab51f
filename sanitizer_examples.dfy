/**
 * The worked examples of the loader's test suite, evaluated on the model.
 *
 * The verifier evaluates the recursive sanitizer functions on string
 * literals only a few characters at a time, so each example is cut into
 * short pieces whose results are proved separately and are then put
 * together by the composition lemmas at the top of this module.
 */
module SanitizerExamples {
  import opened Sanitizer

  /** Every character of s is a '/'. */
  ghost predicate AllSlashes(s: string) {
    forall i :: 0 <= i < |s| ==> s[i] == '/'
  }

  /** The filter of three pieces is the three filtered pieces. */
  lemma FilterThree(keep: char -> bool, m1: string, m2: string, m3: string, f1: string, f2: string, f3: string)
    requires Filter(m1, keep) == f1 && Filter(m2, keep) == f2 && Filter(m3, keep) == f3
    ensures Filter(m1 + m2 + m3, keep) == f1 + f2 + f3
  {
    FilterConcat(m1, m2, keep);
    FilterConcat(m1 + m2, m3, keep);
  }

  /** The ".." pass of three pieces, none but the last ending in '.', is the three passes. */
  lemma DotsThree(f1: string, f2: string, f3: string, r1: string, r2: string, r3: string)
    requires f1 != [] && f1[|f1| - 1] != '.'
    requires f2 != [] && f2[|f2| - 1] != '.'
    requires RemoveDotDot(f1) == r1 && RemoveDotDot(f2) == r2 && RemoveDotDot(f3) == r3
    ensures RemoveDotDot(f1 + f2 + f3) == r1 + r2 + r3
  {
    RemoveDotDotConcat(f1, f2);
    assert (f1 + f2)[|f1 + f2| - 1] == f2[|f2| - 1];
    RemoveDotDotConcat(f1 + f2, f3);
  }

  /**
   * sanitizePathRegExp evaluated piecewise: a run of '/' in front, a middle
   * that filters to a core with no '/' at either end, and a tail that filters
   * to slashes only. The result is the ".." pass of the core.
   */
  lemma PathPipeline(path: string, lead: string, middle: string, tail: string, core: string, trail: string, result: string)
    requires path == lead + middle + tail
    requires Filter(lead, IsPathChar) == lead && AllSlashes(lead)
    requires Filter(tail, IsPathChar) == trail && AllSlashes(trail)
    requires Filter(middle, IsPathChar) == core
    requires core != [] && core[0] != '/' && core[|core| - 1] != '/'
    requires RemoveDotDot(core) == result && result != "" && result != "/"
    ensures SanitizePathRegExp(path) == result
  {
    FilterConcat(lead, middle, IsPathChar);
    FilterConcat(lead + middle, tail, IsPathChar);
    TrimSlashesExact(lead, core, trail);
    SanitizedPathIsOnePass(core);
  }

  lemma SpecialPathFilter1Chunk0()
    ensures Filter("this", IsPathChar) == "this"
  {
  }

  lemma SpecialPathFilter1Chunk1()
    ensures Filter("/../", IsPathChar) == "/../"
  {
  }

  lemma SpecialPathFilter1Chunk2()
    ensures Filter("path", IsPathChar) == "path"
  {
  }

  lemma SpecialPathFilter1Chunk3()
    ensures Filter("/doe", IsPathChar) == "/doe"
  {
  }

  lemma SpecialPathFilter1Chunk4()
    ensures Filter("snt/", IsPathChar) == "snt/"
  {
  }

  lemma SpecialPathFilter1Chunk5()
    ensures Filter("&/", IsPathChar) == "/"
  {
  }

  lemma SpecialPathFilter1Split(s: string)
    requires s == "this/../path/doesnt/&/"
    ensures s == "this" + "/../" + "path" + "/doe" + "snt/" + "&/"
  {
  }

  lemma SpecialPathFilter1Join(s: string)
    requires s == "this" + "/../" + "path" + "/doe" + "snt/" + "/"
    ensures s == "this/../path/doesnt//"
  {
  }

  /** The character filter on the first piece. */
  lemma SpecialPathFilter1()
    ensures Filter("this/../path/doesnt/&/", IsPathChar) == "this/../path/doesnt//"
  {
    SpecialPathFilter1Split("this/../path/doesnt/&/");
    SpecialPathFilter1Chunk0();
    SpecialPathFilter1Chunk1();
    SpecialPathFilter1Chunk2();
    SpecialPathFilter1Chunk3();
    SpecialPathFilter1Chunk4();
    SpecialPathFilter1Chunk5();
    FilterConcat("this", "/../", IsPathChar);
    FilterConcat("this" + "/../", "path", IsPathChar);
    FilterConcat("this" + "/../" + "path", "/doe", IsPathChar);
    FilterConcat("this" + "/../" + "path" + "/doe", "snt/", IsPathChar);
    FilterConcat("this" + "/../" + "path" + "/doe" + "snt/", "&/", IsPathChar);
    SpecialPathFilter1Join("this" + "/../" + "path" + "/doe" + "snt/" + "/");
  }

  lemma SpecialPathFilter2Chunk0()
    ensures Filter("cont", IsPathChar) == "cont"
  {
  }

  lemma SpecialPathFilter2Chunk1()
    ensures Filter("ain/", IsPathChar) == "ain/"
  {
  }

  lemma SpecialPathFilter2Chunk2()
    ensures Filter("non/", IsPathChar) == "non/"
  {
  }

  lemma SpecialPathFilter2Chunk3()
    ensures Filter(" spa", IsPathChar) == "spa"
  {
  }

  lemma SpecialPathFilter2Chunk4()
    ensures Filter("ces ", IsPathChar) == "ces"
  {
  }

  lemma SpecialPathFilter2Chunk5()
    ensures Filter("/and", IsPathChar) == "/and"
  {
  }

  lemma SpecialPathFilter2Chunk6()
    ensures Filter("/", IsPathChar) == "/"
  {
  }

  lemma SpecialPathFilter2Split(s: string)
    requires s == "contain/non/ spaces /and/"
    ensures s == "cont" + "ain/" + "non/" + " spa" + "ces " + "/and" + "/"
  {
  }

  lemma SpecialPathFilter2Join(s: string)
    requires s == "cont" + "ain/" + "non/" + "spa" + "ces" + "/and" + "/"
    ensures s == "contain/non/spaces/and/"
  {
  }

  /** The character filter on the second piece. */
  lemma SpecialPathFilter2()
    ensures Filter("contain/non/ spaces /and/", IsPathChar) == "contain/non/spaces/and/"
  {
    SpecialPathFilter2Split("contain/non/ spaces /and/");
    SpecialPathFilter2Chunk0();
    SpecialPathFilter2Chunk1();
    SpecialPathFilter2Chunk2();
    SpecialPathFilter2Chunk3();
    SpecialPathFilter2Chunk4();
    SpecialPathFilter2Chunk5();
    SpecialPathFilter2Chunk6();
    FilterConcat("cont", "ain/", IsPathChar);
    FilterConcat("cont" + "ain/", "non/", IsPathChar);
    FilterConcat("cont" + "ain/" + "non/", " spa", IsPathChar);
    FilterConcat("cont" + "ain/" + "non/" + " spa", "ces ", IsPathChar);
    FilterConcat("cont" + "ain/" + "non/" + " spa" + "ces ", "/and", IsPathChar);
    FilterConcat("cont" + "ain/" + "non/" + " spa" + "ces " + "/and", "/", IsPathChar);
    SpecialPathFilter2Join("cont" + "ain/" + "non/" + "spa" + "ces" + "/and" + "/");
  }

  lemma SpecialPathFilter3Chunk0()
    ensures Filter("0123", IsPathChar) == "0123"
  {
  }

  lemma SpecialPathFilter3Chunk1()
    ensures Filter("4567", IsPathChar) == "4567"
  {
  }

  lemma SpecialPathFilter3Chunk2()
    ensures Filter("89/s", IsPathChar) == "89/s"
  {
  }

  lemma SpecialPathFilter3Chunk3()
    ensures Filter("peci", IsPathChar) == "peci"
  {
  }

  lemma SpecialPathFilter3Chunk4()
    ensures Filter("al/c", IsPathChar) == "al/c"
  {
  }

  lemma SpecialPathFilter3Chunk5()
    ensures Filter("hars", IsPathChar) == "hars"
  {
  }

  lemma SpecialPathFilter3Split(s: string)
    requires s == "0123456789/special/chars"
    ensures s == "0123" + "4567" + "89/s" + "peci" + "al/c" + "hars"
  {
  }

  lemma SpecialPathFilter3Join(s: string)
    requires s == "0123" + "4567" + "89/s" + "peci" + "al/c" + "hars"
    ensures s == "0123456789/special/chars"
  {
  }

  /** The character filter on the third piece. */
  lemma SpecialPathFilter3()
    ensures Filter("0123456789/special/chars", IsPathChar) == "0123456789/special/chars"
  {
    SpecialPathFilter3Split("0123456789/special/chars");
    SpecialPathFilter3Chunk0();
    SpecialPathFilter3Chunk1();
    SpecialPathFilter3Chunk2();
    SpecialPathFilter3Chunk3();
    SpecialPathFilter3Chunk4();
    SpecialPathFilter3Chunk5();
    FilterConcat("0123", "4567", IsPathChar);
    FilterConcat("0123" + "4567", "89/s", IsPathChar);
    FilterConcat("0123" + "4567" + "89/s", "peci", IsPathChar);
    FilterConcat("0123" + "4567" + "89/s" + "peci", "al/c", IsPathChar);
    FilterConcat("0123" + "4567" + "89/s" + "peci" + "al/c", "hars", IsPathChar);
    SpecialPathFilter3Join("0123" + "4567" + "89/s" + "peci" + "al/c" + "hars");
  }

  lemma SpecialPathFilterTailChunk0()
    ensures Filter("/!\"£", IsPathChar) == "/"
  {
  }

  lemma SpecialPathFilterTailChunk1()
    ensures Filter("$%&/", IsPathChar) == "/"
  {
  }

  lemma SpecialPathFilterTailChunk2()
    ensures Filter("()=?", IsPathChar) == ""
  {
  }

  lemma SpecialPathFilterTailChunk3()
    ensures Filter("^*é°", IsPathChar) == ""
  {
  }

  lemma SpecialPathFilterTailChunk4()
    ensures Filter("§ç:;", IsPathChar) == ""
  {
  }

  lemma SpecialPathFilterTailSplit(s: string)
    requires s == "/!\"£$%&/()=?^*é°§ç:;"
    ensures s == "/!\"£" + "$%&/" + "()=?" + "^*é°" + "§ç:;"
  {
  }

  lemma SpecialPathFilterTailJoin(s: string)
    requires s == "/" + "/" + "" + "" + ""
    ensures s == "//"
  {
  }

  /** The tail of the path filters to slashes only. */
  lemma SpecialPathFilterTail()
    ensures Filter("/!\"£$%&/()=?^*é°§ç:;", IsPathChar) == "//"
  {
    SpecialPathFilterTailSplit("/!\"£$%&/()=?^*é°§ç:;");
    SpecialPathFilterTailChunk0();
    SpecialPathFilterTailChunk1();
    SpecialPathFilterTailChunk2();
    SpecialPathFilterTailChunk3();
    SpecialPathFilterTailChunk4();
    FilterConcat("/!\"£", "$%&/", IsPathChar);
    FilterConcat("/!\"£" + "$%&/", "()=?", IsPathChar);
    FilterConcat("/!\"£" + "$%&/" + "()=?", "^*é°", IsPathChar);
    FilterConcat("/!\"£" + "$%&/" + "()=?" + "^*é°", "§ç:;", IsPathChar);
    SpecialPathFilterTailJoin("/" + "/" + "" + "" + "");
  }

  lemma SpecialPathDots1Chunk0()
    ensures RemoveDotDot("this") == "this"
  {
  }

  lemma SpecialPathDots1Chunk1()
    ensures RemoveDotDot("/../") == "//"
  {
  }

  lemma SpecialPathDots1Chunk2()
    ensures RemoveDotDot("path") == "path"
  {
  }

  lemma SpecialPathDots1Chunk3()
    ensures RemoveDotDot("/doe") == "/doe"
  {
  }

  lemma SpecialPathDots1Chunk4()
    ensures RemoveDotDot("snt/") == "snt/"
  {
  }

  lemma SpecialPathDots1Chunk5()
    ensures RemoveDotDot("/") == "/"
  {
  }

  lemma SpecialPathDots1Split(s: string)
    requires s == "this/../path/doesnt//"
    ensures s == "this" + "/../" + "path" + "/doe" + "snt/" + "/"
  {
  }

  lemma SpecialPathDots1Join(s: string)
    requires s == "this" + "//" + "path" + "/doe" + "snt/" + "/"
    ensures s == "this//path/doesnt//"
  {
  }

  /** The ".." pass on the first piece. */
  lemma SpecialPathDots1()
    ensures RemoveDotDot("this/../path/doesnt//") == "this//path/doesnt//"
  {
    SpecialPathDots1Split("this/../path/doesnt//");
    SpecialPathDots1Chunk0();
    SpecialPathDots1Chunk1();
    SpecialPathDots1Chunk2();
    SpecialPathDots1Chunk3();
    SpecialPathDots1Chunk4();
    SpecialPathDots1Chunk5();
    RemoveDotDotConcat("this", "/../");
    RemoveDotDotConcat("this" + "/../", "path");
    RemoveDotDotConcat("this" + "/../" + "path", "/doe");
    RemoveDotDotConcat("this" + "/../" + "path" + "/doe", "snt/");
    RemoveDotDotConcat("this" + "/../" + "path" + "/doe" + "snt/", "/");
    SpecialPathDots1Join("this" + "//" + "path" + "/doe" + "snt/" + "/");
  }

  lemma SpecialPathDots2Chunk0()
    ensures RemoveDotDot("cont") == "cont"
  {
  }

  lemma SpecialPathDots2Chunk1()
    ensures RemoveDotDot("ain/") == "ain/"
  {
  }

  lemma SpecialPathDots2Chunk2()
    ensures RemoveDotDot("non/") == "non/"
  {
  }

  lemma SpecialPathDots2Chunk3()
    ensures RemoveDotDot("spac") == "spac"
  {
  }

  lemma SpecialPathDots2Chunk4()
    ensures RemoveDotDot("es/a") == "es/a"
  {
  }

  lemma SpecialPathDots2Chunk5()
    ensures RemoveDotDot("nd/") == "nd/"
  {
  }

  lemma SpecialPathDots2Split(s: string)
    requires s == "contain/non/spaces/and/"
    ensures s == "cont" + "ain/" + "non/" + "spac" + "es/a" + "nd/"
  {
  }

  lemma SpecialPathDots2Join(s: string)
    requires s == "cont" + "ain/" + "non/" + "spac" + "es/a" + "nd/"
    ensures s == "contain/non/spaces/and/"
  {
  }

  /** The ".." pass on the second piece. */
  lemma SpecialPathDots2()
    ensures RemoveDotDot("contain/non/spaces/and/") == "contain/non/spaces/and/"
  {
    SpecialPathDots2Split("contain/non/spaces/and/");
    SpecialPathDots2Chunk0();
    SpecialPathDots2Chunk1();
    SpecialPathDots2Chunk2();
    SpecialPathDots2Chunk3();
    SpecialPathDots2Chunk4();
    SpecialPathDots2Chunk5();
    RemoveDotDotConcat("cont", "ain/");
    RemoveDotDotConcat("cont" + "ain/", "non/");
    RemoveDotDotConcat("cont" + "ain/" + "non/", "spac");
    RemoveDotDotConcat("cont" + "ain/" + "non/" + "spac", "es/a");
    RemoveDotDotConcat("cont" + "ain/" + "non/" + "spac" + "es/a", "nd/");
    SpecialPathDots2Join("cont" + "ain/" + "non/" + "spac" + "es/a" + "nd/");
  }

  lemma SpecialPathDots3Chunk0()
    ensures RemoveDotDot("0123") == "0123"
  {
  }

  lemma SpecialPathDots3Chunk1()
    ensures RemoveDotDot("4567") == "4567"
  {
  }

  lemma SpecialPathDots3Chunk2()
    ensures RemoveDotDot("89/s") == "89/s"
  {
  }

  lemma SpecialPathDots3Chunk3()
    ensures RemoveDotDot("peci") == "peci"
  {
  }

  lemma SpecialPathDots3Chunk4()
    ensures RemoveDotDot("al/c") == "al/c"
  {
  }

  lemma SpecialPathDots3Chunk5()
    ensures RemoveDotDot("hars") == "hars"
  {
  }

  lemma SpecialPathDots3Split(s: string)
    requires s == "0123456789/special/chars"
    ensures s == "0123" + "4567" + "89/s" + "peci" + "al/c" + "hars"
  {
  }

  lemma SpecialPathDots3Join(s: string)
    requires s == "0123" + "4567" + "89/s" + "peci" + "al/c" + "hars"
    ensures s == "0123456789/special/chars"
  {
  }

  /** The ".." pass on the third piece. */
  lemma SpecialPathDots3()
    ensures RemoveDotDot("0123456789/special/chars") == "0123456789/special/chars"
  {
    SpecialPathDots3Split("0123456789/special/chars");
    SpecialPathDots3Chunk0();
    SpecialPathDots3Chunk1();
    SpecialPathDots3Chunk2();
    SpecialPathDots3Chunk3();
    SpecialPathDots3Chunk4();
    SpecialPathDots3Chunk5();
    RemoveDotDotConcat("0123", "4567");
    RemoveDotDotConcat("0123" + "4567", "89/s");
    RemoveDotDotConcat("0123" + "4567" + "89/s", "peci");
    RemoveDotDotConcat("0123" + "4567" + "89/s" + "peci", "al/c");
    RemoveDotDotConcat("0123" + "4567" + "89/s" + "peci" + "al/c", "hars");
    SpecialPathDots3Join("0123" + "4567" + "89/s" + "peci" + "al/c" + "hars");
  }

  lemma SpecialPathJoinFront()
    ensures "this//path/doesnt//" + "contain/non/spaces/and/" == "this//path/doesnt//contain/non/spaces/and/"
  {
  }

  lemma SpecialPathJoinBack()
    ensures "this//path/doesnt//contain/non/spaces/and/" + "0123456789/special/chars" == "this//path/doesnt//contain/non/spaces/and/0123456789/special/chars"
  {
  }

  lemma SpecialPathJoin(s: string)
    requires s == "this//path/doesnt//" + "contain/non/spaces/and/" + "0123456789/special/chars"
    ensures s == "this//path/doesnt//contain/non/spaces/and/0123456789/special/chars"
  {
    SpecialPathJoinFront();
    SpecialPathJoinBack();
  }

  lemma SpecialPathLead()
    ensures Filter("/", IsPathChar) == "/" && AllSlashes("/")
  {
  }

  lemma SpecialPathTrail()
    ensures AllSlashes("//")
  {
  }

  lemma SpecialPathCore()
    ensures Filter("this/../path/doesnt/&/" + "contain/non/ spaces /and/" + "0123456789/special/chars", IsPathChar) == "this/../path/doesnt//" + "contain/non/spaces/and/" + "0123456789/special/chars"
  {
    SpecialPathFilter1();
    SpecialPathFilter2();
    SpecialPathFilter3();
    FilterThree(IsPathChar, "this/../path/doesnt/&/", "contain/non/ spaces /and/", "0123456789/special/chars", "this/../path/doesnt//", "contain/non/spaces/and/", "0123456789/special/chars");
  }

  lemma SpecialPathCoreDots()
    ensures RemoveDotDot("this/../path/doesnt//" + "contain/non/spaces/and/" + "0123456789/special/chars") == "this//path/doesnt//" + "contain/non/spaces/and/" + "0123456789/special/chars"
  {
    SpecialPathDots1();
    SpecialPathDots2();
    SpecialPathDots3();
    DotsThree("this/../path/doesnt//", "contain/non/spaces/and/", "0123456789/special/chars", "this//path/doesnt//", "contain/non/spaces/and/", "0123456789/special/chars");
  }

  lemma SpecialPathCoreShape()
    ensures ("this/../path/doesnt//" + "contain/non/spaces/and/" + "0123456789/special/chars") != [] && ("this/../path/doesnt//" + "contain/non/spaces/and/" + "0123456789/special/chars")[0] != '/' && ("this/../path/doesnt//" + "contain/non/spaces/and/" + "0123456789/special/chars")[|"this/../path/doesnt//" + "contain/non/spaces/and/" + "0123456789/special/chars"| - 1] != '/'
    ensures "this//path/doesnt//" + "contain/non/spaces/and/" + "0123456789/special/chars" != "" && "this//path/doesnt//" + "contain/non/spaces/and/" + "0123456789/special/chars" != "/"
  {
  }

  /** The special path of tests/LoaderTest.php: foreign characters and the slashes at both ends go, and so does the "..". */
  lemma SpecialPathExample(path: string)
    requires path == "/" + ("this/../path/doesnt/&/" + "contain/non/ spaces /and/" + "0123456789/special/chars") + "/!\"£$%&/()=?^*é°§ç:;"
    ensures SanitizePathRegExp(path) == "this//path/doesnt//contain/non/spaces/and/0123456789/special/chars"
  {
    SpecialPathLead();
    SpecialPathTrail();
    SpecialPathFilterTail();
    SpecialPathCore();
    SpecialPathCoreDots();
    SpecialPathCoreShape();
    PathPipeline(path, "/", "this/../path/doesnt/&/" + "contain/non/ spaces /and/" + "0123456789/special/chars", "/!\"£$%&/()=?^*é°§ç:;", "this/../path/doesnt//" + "contain/non/spaces/and/" + "0123456789/special/chars", "//", "this//path/doesnt//" + "contain/non/spaces/and/" + "0123456789/special/chars");
    SpecialPathJoin("this//path/doesnt//" + "contain/non/spaces/and/" + "0123456789/special/chars");
  }

  lemma ExistsFilePathFilter1Chunk0()
    ensures Filter("test", IsPathChar) == "test"
  {
  }

  lemma ExistsFilePathFilter1Chunk1()
    ensures Filter("s/", IsPathChar) == "s/"
  {
  }

  lemma ExistsFilePathFilter1Split(s: string)
    requires s == "tests/"
    ensures s == "test" + "s/"
  {
  }

  lemma ExistsFilePathFilter1Join(s: string)
    requires s == "test" + "s/"
    ensures s == "tests/"
  {
  }

  /** The character filter on the first piece. */
  lemma ExistsFilePathFilter1()
    ensures Filter("tests/", IsPathChar) == "tests/"
  {
    ExistsFilePathFilter1Split("tests/");
    ExistsFilePathFilter1Chunk0();
    ExistsFilePathFilter1Chunk1();
    FilterConcat("test", "s/", IsPathChar);
    ExistsFilePathFilter1Join("test" + "s/");
  }

  lemma ExistsFilePathFilter2Chunk0()
    ensures Filter("asse", IsPathChar) == "asse"
  {
  }

  lemma ExistsFilePathFilter2Chunk1()
    ensures Filter("ts/", IsPathChar) == "ts/"
  {
  }

  lemma ExistsFilePathFilter2Split(s: string)
    requires s == "assets/"
    ensures s == "asse" + "ts/"
  {
  }

  lemma ExistsFilePathFilter2Join(s: string)
    requires s == "asse" + "ts/"
    ensures s == "assets/"
  {
  }

  /** The character filter on the second piece. */
  lemma ExistsFilePathFilter2()
    ensures Filter("assets/", IsPathChar) == "assets/"
  {
    ExistsFilePathFilter2Split("assets/");
    ExistsFilePathFilter2Chunk0();
    ExistsFilePathFilter2Chunk1();
    FilterConcat("asse", "ts/", IsPathChar);
    ExistsFilePathFilter2Join("asse" + "ts/");
  }

  lemma ExistsFilePathFilter3Chunk0()
    ensures Filter("exis", IsPathChar) == "exis"
  {
  }

  lemma ExistsFilePathFilter3Chunk1()
    ensures Filter("tsFi", IsPathChar) == "tsFi"
  {
  }

  lemma ExistsFilePathFilter3Chunk2()
    ensures Filter("le.p", IsPathChar) == "le.p"
  {
  }

  lemma ExistsFilePathFilter3Chunk3()
    ensures Filter("hp", IsPathChar) == "hp"
  {
  }

  lemma ExistsFilePathFilter3Split(s: string)
    requires s == "existsFile.php"
    ensures s == "exis" + "tsFi" + "le.p" + "hp"
  {
  }

  lemma ExistsFilePathFilter3Join(s: string)
    requires s == "exis" + "tsFi" + "le.p" + "hp"
    ensures s == "existsFile.php"
  {
  }

  /** The character filter on the third piece. */
  lemma ExistsFilePathFilter3()
    ensures Filter("existsFile.php", IsPathChar) == "existsFile.php"
  {
    ExistsFilePathFilter3Split("existsFile.php");
    ExistsFilePathFilter3Chunk0();
    ExistsFilePathFilter3Chunk1();
    ExistsFilePathFilter3Chunk2();
    ExistsFilePathFilter3Chunk3();
    FilterConcat("exis", "tsFi", IsPathChar);
    FilterConcat("exis" + "tsFi", "le.p", IsPathChar);
    FilterConcat("exis" + "tsFi" + "le.p", "hp", IsPathChar);
    ExistsFilePathFilter3Join("exis" + "tsFi" + "le.p" + "hp");
  }

  lemma ExistsFilePathDots1Chunk0()
    ensures RemoveDotDot("test") == "test"
  {
  }

  lemma ExistsFilePathDots1Chunk1()
    ensures RemoveDotDot("s/") == "s/"
  {
  }

  lemma ExistsFilePathDots1Split(s: string)
    requires s == "tests/"
    ensures s == "test" + "s/"
  {
  }

  lemma ExistsFilePathDots1Join(s: string)
    requires s == "test" + "s/"
    ensures s == "tests/"
  {
  }

  /** The ".." pass on the first piece. */
  lemma ExistsFilePathDots1()
    ensures RemoveDotDot("tests/") == "tests/"
  {
    ExistsFilePathDots1Split("tests/");
    ExistsFilePathDots1Chunk0();
    ExistsFilePathDots1Chunk1();
    RemoveDotDotConcat("test", "s/");
    ExistsFilePathDots1Join("test" + "s/");
  }

  lemma ExistsFilePathDots2Chunk0()
    ensures RemoveDotDot("asse") == "asse"
  {
  }

  lemma ExistsFilePathDots2Chunk1()
    ensures RemoveDotDot("ts/") == "ts/"
  {
  }

  lemma ExistsFilePathDots2Split(s: string)
    requires s == "assets/"
    ensures s == "asse" + "ts/"
  {
  }

  lemma ExistsFilePathDots2Join(s: string)
    requires s == "asse" + "ts/"
    ensures s == "assets/"
  {
  }

  /** The ".." pass on the second piece. */
  lemma ExistsFilePathDots2()
    ensures RemoveDotDot("assets/") == "assets/"
  {
    ExistsFilePathDots2Split("assets/");
    ExistsFilePathDots2Chunk0();
    ExistsFilePathDots2Chunk1();
    RemoveDotDotConcat("asse", "ts/");
    ExistsFilePathDots2Join("asse" + "ts/");
  }

  lemma ExistsFilePathDots3Chunk0()
    ensures RemoveDotDot("exis") == "exis"
  {
  }

  lemma ExistsFilePathDots3Chunk1()
    ensures RemoveDotDot("tsFi") == "tsFi"
  {
  }

  lemma ExistsFilePathDots3Chunk2()
    ensures RemoveDotDot("le.p") == "le.p"
  {
  }

  lemma ExistsFilePathDots3Chunk3()
    ensures RemoveDotDot("hp") == "hp"
  {
  }

  lemma ExistsFilePathDots3Split(s: string)
    requires s == "existsFile.php"
    ensures s == "exis" + "tsFi" + "le.p" + "hp"
  {
  }

  lemma ExistsFilePathDots3Join(s: string)
    requires s == "exis" + "tsFi" + "le.p" + "hp"
    ensures s == "existsFile.php"
  {
  }

  /** The ".." pass on the third piece. */
  lemma ExistsFilePathDots3()
    ensures RemoveDotDot("existsFile.php") == "existsFile.php"
  {
    ExistsFilePathDots3Split("existsFile.php");
    ExistsFilePathDots3Chunk0();
    ExistsFilePathDots3Chunk1();
    ExistsFilePathDots3Chunk2();
    ExistsFilePathDots3Chunk3();
    RemoveDotDotConcat("exis", "tsFi");
    RemoveDotDotConcat("exis" + "tsFi", "le.p");
    RemoveDotDotConcat("exis" + "tsFi" + "le.p", "hp");
    ExistsFilePathDots3Join("exis" + "tsFi" + "le.p" + "hp");
  }

  lemma ExistsFilePathJoinFront()
    ensures "tests/" + "assets/" == "tests/assets/"
  {
  }

  lemma ExistsFilePathJoinBack()
    ensures "tests/assets/" + "existsFile.php" == "tests/assets/existsFile.php"
  {
  }

  lemma ExistsFilePathJoin(s: string)
    requires s == "tests/" + "assets/" + "existsFile.php"
    ensures s == "tests/assets/existsFile.php"
  {
    ExistsFilePathJoinFront();
    ExistsFilePathJoinBack();
  }

  lemma ExistsFilePathLead()
    ensures Filter("/", IsPathChar) == "/" && AllSlashes("/")
  {
  }

  lemma ExistsFilePathTrail()
    ensures AllSlashes("")
  {
  }

  lemma ExistsFilePathCore()
    ensures Filter("tests/" + "assets/" + "existsFile.php", IsPathChar) == "tests/" + "assets/" + "existsFile.php"
  {
    ExistsFilePathFilter1();
    ExistsFilePathFilter2();
    ExistsFilePathFilter3();
    FilterThree(IsPathChar, "tests/", "assets/", "existsFile.php", "tests/", "assets/", "existsFile.php");
  }

  lemma ExistsFilePathCoreDots()
    ensures RemoveDotDot("tests/" + "assets/" + "existsFile.php") == "tests/" + "assets/" + "existsFile.php"
  {
    ExistsFilePathDots1();
    ExistsFilePathDots2();
    ExistsFilePathDots3();
    DotsThree("tests/", "assets/", "existsFile.php", "tests/", "assets/", "existsFile.php");
  }

  lemma ExistsFilePathCoreShape()
    ensures ("tests/" + "assets/" + "existsFile.php") != [] && ("tests/" + "assets/" + "existsFile.php")[0] != '/' && ("tests/" + "assets/" + "existsFile.php")[|"tests/" + "assets/" + "existsFile.php"| - 1] != '/'
    ensures "tests/" + "assets/" + "existsFile.php" != "" && "tests/" + "assets/" + "existsFile.php" != "/"
  {
  }

  /** The test asset of tests/src/LoaderTest.php: only the leading '/' goes. */
  lemma ExistsFilePathExample(path: string)
    requires path == "/" + ("tests/" + "assets/" + "existsFile.php")
    ensures SanitizePathRegExp(path) == "tests/assets/existsFile.php"
  {
    ExistsFilePathLead();
    ExistsFilePathTrail();
    assert Filter("", IsPathChar) == "";
    ExistsFilePathCore();
    ExistsFilePathCoreDots();
    ExistsFilePathCoreShape();
    assert path == "/" + ("tests/" + "assets/" + "existsFile.php") + "";
    PathPipeline(path, "/", "tests/" + "assets/" + "existsFile.php", "", "tests/" + "assets/" + "existsFile.php", "", "tests/" + "assets/" + "existsFile.php");
    ExistsFilePathJoin("tests/" + "assets/" + "existsFile.php");
  }

  lemma SpecialSlugFrontChunk0()
    ensures Filter("/thi", IsSlugChar) == "thi"
  {
  }

  lemma SpecialSlugFrontChunk1()
    ensures Filter("s/is", IsSlugChar) == "sis"
  {
  }

  lemma SpecialSlugFrontChunk2()
    ensures Filter("/123", IsSlugChar) == "123"
  {
  }

  lemma SpecialSlugFrontChunk3()
    ensures Filter("4567", IsSlugChar) == "4567"
  {
  }

  lemma SpecialSlugFrontChunk4()
    ensures Filter("890/", IsSlugChar) == "890"
  {
  }

  lemma SpecialSlugFrontChunk5()
    ensures Filter("a/sp", IsSlugChar) == "asp"
  {
  }

  lemma SpecialSlugFrontChunk6()
    ensures Filter("ecia", IsSlugChar) == "ecia"
  {
  }

  lemma SpecialSlugFrontChunk7()
    ensures Filter("l/", IsSlugChar) == "l"
  {
  }

  lemma SpecialSlugFrontSplit(s: string)
    requires s == "/this/is/1234567890/a/special/"
    ensures s == "/thi" + "s/is" + "/123" + "4567" + "890/" + "a/sp" + "ecia" + "l/"
  {
  }

  lemma SpecialSlugFrontJoin(s: string)
    requires s == "thi" + "sis" + "123" + "4567" + "890" + "asp" + "ecia" + "l"
    ensures s == "thisis1234567890aspecial"
  {
  }

  /** The slug filter on the front of the special slug. */
  lemma SpecialSlugFront()
    ensures Filter("/this/is/1234567890/a/special/", IsSlugChar) == "thisis1234567890aspecial"
  {
    SpecialSlugFrontSplit("/this/is/1234567890/a/special/");
    SpecialSlugFrontChunk0();
    SpecialSlugFrontChunk1();
    SpecialSlugFrontChunk2();
    SpecialSlugFrontChunk3();
    SpecialSlugFrontChunk4();
    SpecialSlugFrontChunk5();
    SpecialSlugFrontChunk6();
    SpecialSlugFrontChunk7();
    FilterConcat("/thi", "s/is", IsSlugChar);
    FilterConcat("/thi" + "s/is", "/123", IsSlugChar);
    FilterConcat("/thi" + "s/is" + "/123", "4567", IsSlugChar);
    FilterConcat("/thi" + "s/is" + "/123" + "4567", "890/", IsSlugChar);
    FilterConcat("/thi" + "s/is" + "/123" + "4567" + "890/", "a/sp", IsSlugChar);
    FilterConcat("/thi" + "s/is" + "/123" + "4567" + "890/" + "a/sp", "ecia", IsSlugChar);
    FilterConcat("/thi" + "s/is" + "/123" + "4567" + "890/" + "a/sp" + "ecia", "l/", IsSlugChar);
    SpecialSlugFrontJoin("thi" + "sis" + "123" + "4567" + "890" + "asp" + "ecia" + "l");
  }

  lemma SpecialSlugBackChunk0()
    ensures Filter("!\"£$", IsSlugChar) == ""
  {
  }

  lemma SpecialSlugBackChunk1()
    ensures Filter("%&/(", IsSlugChar) == ""
  {
  }

  lemma SpecialSlugBackChunk2()
    ensures Filter(")=?^", IsSlugChar) == ""
  {
  }

  lemma SpecialSlugBackChunk3()
    ensures Filter("é*°§", IsSlugChar) == ""
  {
  }

  lemma SpecialSlugBackChunk4()
    ensures Filter("ç:;_", IsSlugChar) == "_"
  {
  }

  lemma SpecialSlugBackChunk5()
    ensures Filter("/slu", IsSlugChar) == "slu"
  {
  }

  lemma SpecialSlugBackChunk6()
    ensures Filter("g/", IsSlugChar) == "g"
  {
  }

  lemma SpecialSlugBackSplit(s: string)
    requires s == "!\"£$%&/()=?^é*°§ç:;_/slug/"
    ensures s == "!\"£$" + "%&/(" + ")=?^" + "é*°§" + "ç:;_" + "/slu" + "g/"
  {
  }

  lemma SpecialSlugBackJoin(s: string)
    requires s == "" + "" + "" + "" + "_" + "slu" + "g"
    ensures s == "_slug"
  {
  }

  /** The slug filter on the back of the special slug. */
  lemma SpecialSlugBack()
    ensures Filter("!\"£$%&/()=?^é*°§ç:;_/slug/", IsSlugChar) == "_slug"
  {
    SpecialSlugBackSplit("!\"£$%&/()=?^é*°§ç:;_/slug/");
    SpecialSlugBackChunk0();
    SpecialSlugBackChunk1();
    SpecialSlugBackChunk2();
    SpecialSlugBackChunk3();
    SpecialSlugBackChunk4();
    SpecialSlugBackChunk5();
    SpecialSlugBackChunk6();
    FilterConcat("!\"£$", "%&/(", IsSlugChar);
    FilterConcat("!\"£$" + "%&/(", ")=?^", IsSlugChar);
    FilterConcat("!\"£$" + "%&/(" + ")=?^", "é*°§", IsSlugChar);
    FilterConcat("!\"£$" + "%&/(" + ")=?^" + "é*°§", "ç:;_", IsSlugChar);
    FilterConcat("!\"£$" + "%&/(" + ")=?^" + "é*°§" + "ç:;_", "/slu", IsSlugChar);
    FilterConcat("!\"£$" + "%&/(" + ")=?^" + "é*°§" + "ç:;_" + "/slu", "g/", IsSlugChar);
    SpecialSlugBackJoin("" + "" + "" + "" + "_" + "slu" + "g");
  }

  lemma SpecialSlugParts()
    ensures Filter("/this/is/1234567890/a/special/" + "!\"£$%&/()=?^é*°§ç:;_/slug/", IsSlugChar) == "thisis1234567890aspecial" + "_slug"
  {
    SpecialSlugFront();
    SpecialSlugBack();
    FilterConcat("/this/is/1234567890/a/special/", "!\"£$%&/()=?^é*°§ç:;_/slug/", IsSlugChar);
  }

  lemma SpecialSlugJoin()
    ensures "thisis1234567890aspecial" + "_slug" == "thisis1234567890aspecial_slug"
  {
  }

  /** The special slug of tests/LoaderTest.php: only the characters of [a-z0-9-_] stay, in their order. */
  lemma SpecialSlugExample(slug: string)
    requires slug == "/this/is/1234567890/a/special/" + "!\"£$%&/()=?^é*°§ç:;_/slug/"
    ensures SanitizeSlugRegExp(slug) == "thisis1234567890aspecial_slug"
  {
    SpecialSlugParts();
    SpecialSlugJoin();
  }

  lemma LoaderSlugFilterChunk0()
    ensures Filter("load", IsSlugChar) == "load"
  {
  }

  lemma LoaderSlugFilterChunk1()
    ensures Filter("er_s", IsSlugChar) == "er_s"
  {
  }

  lemma LoaderSlugFilterChunk2()
    ensures Filter("lug", IsSlugChar) == "lug"
  {
  }

  lemma LoaderSlugFilterSplit(s: string)
    requires s == "loader_slug"
    ensures s == "load" + "er_s" + "lug"
  {
  }

  lemma LoaderSlugFilterJoin(s: string)
    requires s == "load" + "er_s" + "lug"
    ensures s == "loader_slug"
  {
  }

  /** The slug filter on the loader's own slug. */
  lemma LoaderSlugFilter()
    ensures Filter("loader_slug", IsSlugChar) == "loader_slug"
  {
    LoaderSlugFilterSplit("loader_slug");
    LoaderSlugFilterChunk0();
    LoaderSlugFilterChunk1();
    LoaderSlugFilterChunk2();
    FilterConcat("load", "er_s", IsSlugChar);
    FilterConcat("load" + "er_s", "lug", IsSlugChar);
    LoaderSlugFilterJoin("load" + "er_s" + "lug");
  }

  /** A slug already written over [a-z0-9-_], as the loader tests use, is kept as it is. */
  lemma LoaderSlugExample(slug: string)
    requires slug == "loader_slug"
    ensures SanitizeSlugRegExp(slug) == slug
  {
    LoaderSlugFilter();
  }

  lemma TraversalDotsChunk0()
    ensures RemoveDotDot("/../") == "//"
  {
  }

  lemma TraversalDotsChunk1()
    ensures RemoveDotDot("this") == "this"
  {
  }

  lemma TraversalDotsChunk2()
    ensures RemoveDotDot("/is/") == "/is/"
  {
  }

  lemma TraversalDotsChunk3()
    ensures RemoveDotDot("a/../") == "a//"
  {
  }

  lemma TraversalDotsChunk4()
    ensures RemoveDotDot("path") == "path"
  {
  }

  lemma TraversalDotsChunk5()
    ensures RemoveDotDot("/../") == "//"
  {
  }

  lemma TraversalDotsSplit(s: string)
    requires s == "/../this/is/a/../path/../"
    ensures s == "/../" + "this" + "/is/" + "a/../" + "path" + "/../"
  {
  }

  lemma TraversalDotsJoin(s: string)
    requires s == "//" + "this" + "/is/" + "a//" + "path" + "//"
    ensures s == "//this/is/a//path//"
  {
  }

  /** The ".." pass on the traversal path. */
  lemma TraversalDots()
    ensures RemoveDotDot("/../this/is/a/../path/../") == "//this/is/a//path//"
  {
    TraversalDotsSplit("/../this/is/a/../path/../");
    TraversalDotsChunk0();
    TraversalDotsChunk1();
    TraversalDotsChunk2();
    TraversalDotsChunk3();
    TraversalDotsChunk4();
    TraversalDotsChunk5();
    RemoveDotDotConcat("/../", "this");
    RemoveDotDotConcat("/../" + "this", "/is/");
    RemoveDotDotConcat("/../" + "this" + "/is/", "a/../");
    RemoveDotDotConcat("/../" + "this" + "/is/" + "a/../", "path");
    RemoveDotDotConcat("/../" + "this" + "/is/" + "a/../" + "path", "/../");
    TraversalDotsJoin("//" + "this" + "/is/" + "a//" + "path" + "//");
  }

  /** The traversal path of tests/src/SanitizerTest.php: sanitizePath removes every ".." and keeps the rest. */
  lemma TraversalExample(path: string)
    requires path == "/../this/is/a/../path/../"
    ensures SanitizedPath(path) == "//this/is/a//path//"
  {
    TraversalDots();
    SanitizedPathIsOnePass(path);
  }

  /**
   * The trim runs before the ".." removal, so a '/' that a ".." hid from the
   * trim survives: "../a" sanitizes to "/a", and sanitizing again gives "a".
   * sanitizePathRegExp is therefore not idempotent.
   */
  lemma LeadingSlashCanReappear()
    ensures SanitizePathRegExp("../a") == "/a"
    ensures SanitizePathRegExp(SanitizePathRegExp("../a")) == "a"
  {
    DotSlashFirstPass("../a");
    DotSlashSecondPass("/a");
  }

  lemma DotSlashPieces()
    ensures Filter("../a", IsPathChar) == "../a" && RemoveDotDot("../a") == "/a"
    ensures Filter("/", IsPathChar) == "/" && Filter("a", IsPathChar) == "a" && RemoveDotDot("a") == "a"
    ensures AllSlashes("") && AllSlashes("/")
  {
  }

  lemma DotSlashFirstPass(path: string)
    requires path == "../a"
    ensures SanitizePathRegExp(path) == "/a"
  {
    DotSlashPieces();
    assert Filter("", IsPathChar) == "";
    assert path == "" + "../a" + "";
    PathPipeline(path, "", "../a", "", "../a", "", "/a");
  }

  lemma DotSlashSecondPass(path: string)
    requires path == "/a"
    ensures SanitizePathRegExp(path) == "a"
  {
    DotSlashPieces();
    assert Filter("", IsPathChar) == "";
    assert path == "/" + "a" + "";
    PathPipeline(path, "/", "a", "", "a", "", "a");
  }
}
