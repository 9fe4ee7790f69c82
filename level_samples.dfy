/**
 * The sample lines of test_extract.py and a few more, with the level `_extract_log_level`
 * gives each one; test_extract.py carries a copy of that function, modelled here by the same
 * `LogEntities.ExtractLogLevel`.
 *
 * Each sample line is passed in as its pieces `p0`, `p1`, ...: its words and the gaps between
 * them, each fixed by the `requires`, so that the line is their concatenation. `<Sample>Words`
 * gives the words of the line, from `Text.WordsOfWordThen` and `Text.WordsOfGapThen`.
 *
 * The pieces are parameters rather than one string literal for the sake of the proof: given
 * the whole literal, the verifier unfolds `Words` character by character over the line and
 * runs out of resource, while named pieces let it take one word or gap per lemma call. The
 * `requires` pin every piece, so each lemma is about exactly the one sample line.
 */
module LevelSamples {
  import opened Text
  import opened LogEntities

  lemma Sample1Words(p0: string, p1: string, p2: string, p3: string, p4: string, p5: string, p6: string, p7: string, p8: string, p9: string, p10: string, p11: string, p12: string)
    requires p0 == "2024" && p1 == "-" && p2 == "01" && p3 == "-" && p4 == "01" && p5 == " "
      && p6 == "ERROR" && p7 == ": " && p8 == "Database" && p9 == " "
      && p10 == "connection" && p11 == " " && p12 == "failed"
    ensures Words(p0 + (p1 + (p2 + (p3 + (p4 + (p5 + (p6 + (p7 + (p8 + (p9 + (p10 + (p11 + p12)))))))))))) == ["2024", "01", "01", "ERROR", "Database", "connection", "failed"]
  {
    assert IsWord(p0);
    assert IsGap(p1);
    assert IsWord(p2);
    assert IsGap(p3);
    assert IsWord(p4);
    assert IsGap(p5);
    assert IsWord(p6);
    assert IsGap(p7);
    assert IsWord(p8);
    assert IsGap(p9);
    assert IsWord(p10);
    assert IsGap(p11);
    assert IsWord(p12);
    assert p12 + "" == p12;
    WordsOfWordThen(p12, "");
    WordsOfGapThen(p11, p12);
    WordsOfWordThen(p10, p11 + p12);
    WordsOfGapThen(p9, p10 + (p11 + p12));
    WordsOfWordThen(p8, p9 + (p10 + (p11 + p12)));
    WordsOfGapThen(p7, p8 + (p9 + (p10 + (p11 + p12))));
    WordsOfWordThen(p6, p7 + (p8 + (p9 + (p10 + (p11 + p12)))));
    WordsOfGapThen(p5, p6 + (p7 + (p8 + (p9 + (p10 + (p11 + p12))))));
    WordsOfWordThen(p4, p5 + (p6 + (p7 + (p8 + (p9 + (p10 + (p11 + p12)))))));
    WordsOfGapThen(p3, p4 + (p5 + (p6 + (p7 + (p8 + (p9 + (p10 + (p11 + p12))))))));
    WordsOfWordThen(p2, p3 + (p4 + (p5 + (p6 + (p7 + (p8 + (p9 + (p10 + (p11 + p12)))))))));
    WordsOfGapThen(p1, p2 + (p3 + (p4 + (p5 + (p6 + (p7 + (p8 + (p9 + (p10 + (p11 + p12))))))))));
    WordsOfWordThen(p0, p1 + (p2 + (p3 + (p4 + (p5 + (p6 + (p7 + (p8 + (p9 + (p10 + (p11 + p12)))))))))));
  }

  /** The first case of test_extract.py, "2024-01-01 ERROR: Database connection failed", is an ERROR line. */
  lemma Sample1IsError(p0: string, p1: string, p2: string, p3: string, p4: string, p5: string, p6: string, p7: string, p8: string, p9: string, p10: string, p11: string, p12: string)
    requires p0 == "2024" && p1 == "-" && p2 == "01" && p3 == "-" && p4 == "01" && p5 == " "
      && p6 == "ERROR" && p7 == ": " && p8 == "Database" && p9 == " "
      && p10 == "connection" && p11 == " " && p12 == "failed"
    ensures var line := p0 + (p1 + (p2 + (p3 + (p4 + (p5 + (p6 + (p7 + (p8 + (p9 + (p10 + (p11 + p12))))))))))); ExtractLogLevel(line) == "ERROR"
  {
    var line := p0 + (p1 + (p2 + (p3 + (p4 + (p5 + (p6 + (p7 + (p8 + (p9 + (p10 + (p11 + p12)))))))))));
    Sample1Words(p0, p1, p2, p3, p4, p5, p6, p7, p8, p9, p10, p11, p12);
    assert Upper("ERROR")[0] != "FATAL"[0];
    assert Upper("ERROR") == "ERROR";
    FirstListedLevelWins(line, 1);
  }

  lemma Sample2Words(p0: string, p1: string, p2: string, p3: string, p4: string, p5: string, p6: string)
    requires p0 == "FATAL" && p1 == ": " && p2 == "System" && p3 == " " && p4 == "crash"
      && p5 == " " && p6 == "detected"
    ensures Words(p0 + (p1 + (p2 + (p3 + (p4 + (p5 + p6)))))) == ["FATAL", "System", "crash", "detected"]
  {
    assert IsWord(p0);
    assert IsGap(p1);
    assert IsWord(p2);
    assert IsGap(p3);
    assert IsWord(p4);
    assert IsGap(p5);
    assert IsWord(p6);
    assert p6 + "" == p6;
    WordsOfWordThen(p6, "");
    WordsOfGapThen(p5, p6);
    WordsOfWordThen(p4, p5 + p6);
    WordsOfGapThen(p3, p4 + (p5 + p6));
    WordsOfWordThen(p2, p3 + (p4 + (p5 + p6)));
    WordsOfGapThen(p1, p2 + (p3 + (p4 + (p5 + p6))));
    WordsOfWordThen(p0, p1 + (p2 + (p3 + (p4 + (p5 + p6)))));
  }

  /** The second case, "FATAL: System crash detected", is a FATAL line. */
  lemma Sample2IsFatal(p0: string, p1: string, p2: string, p3: string, p4: string, p5: string, p6: string)
    requires p0 == "FATAL" && p1 == ": " && p2 == "System" && p3 == " " && p4 == "crash"
      && p5 == " " && p6 == "detected"
    ensures var line := p0 + (p1 + (p2 + (p3 + (p4 + (p5 + p6))))); ExtractLogLevel(line) == "FATAL"
  {
    var line := p0 + (p1 + (p2 + (p3 + (p4 + (p5 + p6)))));
    Sample2Words(p0, p1, p2, p3, p4, p5, p6);
    assert Upper("FATAL") == "FATAL";
    FirstListedLevelWins(line, 0);
  }

  lemma Sample3Words(p0: string, p1: string, p2: string, p3: string, p4: string, p5: string, p6: string)
    requires p0 == "WARN" && p1 == ": " && p2 == "High" && p3 == " " && p4 == "memory"
      && p5 == " " && p6 == "usage"
    ensures Words(p0 + (p1 + (p2 + (p3 + (p4 + (p5 + p6)))))) == ["WARN", "High", "memory", "usage"]
  {
    assert IsWord(p0);
    assert IsGap(p1);
    assert IsWord(p2);
    assert IsGap(p3);
    assert IsWord(p4);
    assert IsGap(p5);
    assert IsWord(p6);
    assert p6 + "" == p6;
    WordsOfWordThen(p6, "");
    WordsOfGapThen(p5, p6);
    WordsOfWordThen(p4, p5 + p6);
    WordsOfGapThen(p3, p4 + (p5 + p6));
    WordsOfWordThen(p2, p3 + (p4 + (p5 + p6)));
    WordsOfGapThen(p1, p2 + (p3 + (p4 + (p5 + p6))));
    WordsOfWordThen(p0, p1 + (p2 + (p3 + (p4 + (p5 + p6)))));
  }

  /** The third case, "WARN: High memory usage", is a WARN line. */
  lemma Sample3IsWarn(p0: string, p1: string, p2: string, p3: string, p4: string, p5: string, p6: string)
    requires p0 == "WARN" && p1 == ": " && p2 == "High" && p3 == " " && p4 == "memory"
      && p5 == " " && p6 == "usage"
    ensures var line := p0 + (p1 + (p2 + (p3 + (p4 + (p5 + p6))))); ExtractLogLevel(line) == "WARN"
  {
    var line := p0 + (p1 + (p2 + (p3 + (p4 + (p5 + p6)))));
    Sample3Words(p0, p1, p2, p3, p4, p5, p6);
    assert Upper("usage")[0] != "FATAL"[0];
    assert Upper("usage")[0] != "ERROR"[0];
    assert Upper("WARN") == "WARN";
    FirstListedLevelWins(line, 2);
  }

  lemma Sample4Words(p0: string, p1: string, p2: string, p3: string, p4: string, p5: string, p6: string)
    requires p0 == "INFO" && p1 == ": " && p2 == "User" && p3 == " " && p4 == "login"
      && p5 == " " && p6 == "successful"
    ensures Words(p0 + (p1 + (p2 + (p3 + (p4 + (p5 + p6)))))) == ["INFO", "User", "login", "successful"]
  {
    assert IsWord(p0);
    assert IsGap(p1);
    assert IsWord(p2);
    assert IsGap(p3);
    assert IsWord(p4);
    assert IsGap(p5);
    assert IsWord(p6);
    assert p6 + "" == p6;
    WordsOfWordThen(p6, "");
    WordsOfGapThen(p5, p6);
    WordsOfWordThen(p4, p5 + p6);
    WordsOfGapThen(p3, p4 + (p5 + p6));
    WordsOfWordThen(p2, p3 + (p4 + (p5 + p6)));
    WordsOfGapThen(p1, p2 + (p3 + (p4 + (p5 + p6))));
    WordsOfWordThen(p0, p1 + (p2 + (p3 + (p4 + (p5 + p6)))));
  }

  /** The fourth case, "INFO: User login successful", is an INFO line. */
  lemma Sample4IsInfo(p0: string, p1: string, p2: string, p3: string, p4: string, p5: string, p6: string)
    requires p0 == "INFO" && p1 == ": " && p2 == "User" && p3 == " " && p4 == "login"
      && p5 == " " && p6 == "successful"
    ensures var line := p0 + (p1 + (p2 + (p3 + (p4 + (p5 + p6))))); ExtractLogLevel(line) == "INFO"
  {
    var line := p0 + (p1 + (p2 + (p3 + (p4 + (p5 + p6)))));
    Sample4Words(p0, p1, p2, p3, p4, p5, p6);
    assert Upper("login")[0] != "FATAL"[0];
    assert Upper("login")[0] != "ERROR"[0];
    assert Upper("INFO")[0] != "WARN"[0];
    assert Upper("User")[0] != "WARN"[0];
    assert Upper("INFO") == "INFO";
    FirstListedLevelWins(line, 4);
  }

  lemma Sample5Words(p0: string, p1: string, p2: string, p3: string, p4: string)
    requires p0 == "DEBUG" && p1 == ": " && p2 == "Processing" && p3 == " "
      && p4 == "request"
    ensures Words(p0 + (p1 + (p2 + (p3 + p4)))) == ["DEBUG", "Processing", "request"]
  {
    assert IsWord(p0);
    assert IsGap(p1);
    assert IsWord(p2);
    assert IsGap(p3);
    assert IsWord(p4);
    assert p4 + "" == p4;
    WordsOfWordThen(p4, "");
    WordsOfGapThen(p3, p4);
    WordsOfWordThen(p2, p3 + p4);
    WordsOfGapThen(p1, p2 + (p3 + p4));
    WordsOfWordThen(p0, p1 + (p2 + (p3 + p4)));
  }

  /** The fifth case, "DEBUG: Processing request", is a DEBUG line. */
  lemma Sample5IsDebug(p0: string, p1: string, p2: string, p3: string, p4: string)
    requires p0 == "DEBUG" && p1 == ": " && p2 == "Processing" && p3 == " "
      && p4 == "request"
    ensures var line := p0 + (p1 + (p2 + (p3 + p4))); ExtractLogLevel(line) == "DEBUG"
  {
    var line := p0 + (p1 + (p2 + (p3 + p4)));
    Sample5Words(p0, p1, p2, p3, p4);
    assert Upper("DEBUG")[0] != "FATAL"[0];
    assert Upper("DEBUG")[0] != "ERROR"[0];
    assert Upper("request")[0] != "WARNING"[0];
    assert Upper("DEBUG") == "DEBUG";
    FirstListedLevelWins(line, 6);
  }

  lemma FatalAndErrorWords(p0: string, p1: string, p2: string, p3: string, p4: string, p5: string, p6: string)
    requires p0 == "fatal" && p1 == " " && p2 == "error" && p3 == " " && p4 == "in"
      && p5 == " " && p6 == "db"
    ensures Words(p0 + (p1 + (p2 + (p3 + (p4 + (p5 + p6)))))) == ["fatal", "error", "in", "db"]
  {
    assert IsWord(p0);
    assert IsGap(p1);
    assert IsWord(p2);
    assert IsGap(p3);
    assert IsWord(p4);
    assert IsGap(p5);
    assert IsWord(p6);
    assert p6 + "" == p6;
    WordsOfWordThen(p6, "");
    WordsOfGapThen(p5, p6);
    WordsOfWordThen(p4, p5 + p6);
    WordsOfGapThen(p3, p4 + (p5 + p6));
    WordsOfWordThen(p2, p3 + (p4 + (p5 + p6)));
    WordsOfGapThen(p1, p2 + (p3 + (p4 + (p5 + p6))));
    WordsOfWordThen(p0, p1 + (p2 + (p3 + (p4 + (p5 + p6)))));
  }

  /** "fatal error in db" is FATAL although it also holds ERROR: the search ignores case, answers
      with the canonical name, and FATAL is tried first. */
  lemma FatalOutranksError(p0: string, p1: string, p2: string, p3: string, p4: string, p5: string, p6: string)
    requires p0 == "fatal" && p1 == " " && p2 == "error" && p3 == " " && p4 == "in"
      && p5 == " " && p6 == "db"
    ensures var line := p0 + (p1 + (p2 + (p3 + (p4 + (p5 + p6))))); ExtractLogLevel(line) == "FATAL"
    ensures var line := p0 + (p1 + (p2 + (p3 + (p4 + (p5 + p6))))); HasLevelWord(line, "ERROR")
  {
    var line := p0 + (p1 + (p2 + (p3 + (p4 + (p5 + p6)))));
    FatalAndErrorWords(p0, p1, p2, p3, p4, p5, p6);
    assert Upper("fatal") == "FATAL";
    assert Upper("error") == "ERROR";
    FirstListedLevelWins(line, 0);
  }

  lemma WarningLineWords(p0: string, p1: string, p2: string)
    requires p0 == "WARNING" && p1 == ": " && p2 == "x"
    ensures Words(p0 + (p1 + p2)) == ["WARNING", "x"]
  {
    assert IsWord(p0);
    assert IsGap(p1);
    assert IsWord(p2);
    assert p2 + "" == p2;
    WordsOfWordThen(p2, "");
    WordsOfGapThen(p1, p2);
    WordsOfWordThen(p0, p1 + p2);
  }

  /** "WARNING: x" is WARNING, not WARN: WARN only matches as a whole word. */
  lemma WarningIsNotWarn(p0: string, p1: string, p2: string)
    requires p0 == "WARNING" && p1 == ": " && p2 == "x"
    ensures var line := p0 + (p1 + p2); ExtractLogLevel(line) == "WARNING"
    ensures var line := p0 + (p1 + p2); !HasLevelWord(line, "WARN")
  {
    var line := p0 + (p1 + p2);
    WarningLineWords(p0, p1, p2);
    assert Upper("WARNING") == "WARNING";
    FirstListedLevelWins(line, 3);
  }

  lemma NoLevelWords(p0: string, p1: string, p2: string)
    requires p0 == "all" && p1 == " " && p2 == "good"
    ensures Words(p0 + (p1 + p2)) == ["all", "good"]
  {
    assert IsWord(p0);
    assert IsGap(p1);
    assert IsWord(p2);
    assert p2 + "" == p2;
    WordsOfWordThen(p2, "");
    WordsOfGapThen(p1, p2);
    WordsOfWordThen(p0, p1 + p2);
  }

  /** "all good" holds no level word and is UNKNOWN. */
  lemma NoLevelIsUnknown(p0: string, p1: string, p2: string)
    requires p0 == "all" && p1 == " " && p2 == "good"
    ensures var line := p0 + (p1 + p2); ExtractLogLevel(line) == Unknown
  {
    var line := p0 + (p1 + p2);
    NoLevelWords(p0, p1, p2);
    assert Upper("good")[0] != "WARN"[0];
    assert Upper("good")[0] != "INFO"[0];
    forall j | 0 <= j < |Levels| ensures !HasLevelWord(line, Levels[j]) { }
  }

  lemma PaymentDownWords(p0: string, p1: string, p2: string, p3: string, p4: string, p5: string, p6: string)
    requires p0 == "FATAL" && p1 == " " && p2 == "PAY_RISK" && p3 == ": "
      && p4 == "PaymentService" && p5 == " " && p6 == "down"
    ensures Words(p0 + (p1 + (p2 + (p3 + (p4 + (p5 + p6)))))) == ["FATAL", "PAY_RISK", "PaymentService", "down"]
  {
    assert IsWord(p0);
    assert IsGap(p1);
    assert IsWord(p2);
    assert IsGap(p3);
    assert IsWord(p4);
    assert IsGap(p5);
    assert IsWord(p6);
    assert p6 + "" == p6;
    WordsOfWordThen(p6, "");
    WordsOfGapThen(p5, p6);
    WordsOfWordThen(p4, p5 + p6);
    WordsOfGapThen(p3, p4 + (p5 + p6));
    WordsOfWordThen(p2, p3 + (p4 + (p5 + p6)));
    WordsOfGapThen(p1, p2 + (p3 + (p4 + (p5 + p6))));
    WordsOfWordThen(p0, p1 + (p2 + (p3 + (p4 + (p5 + p6)))));
  }

  /** "FATAL PAY_RISK: PaymentService down" is a FATAL line whose error codes are FATAL and
      PAY_RISK (the level word is shaped like a code) and whose one service is PaymentService. */
  lemma PaymentDownEntities(p0: string, p1: string, p2: string, p3: string, p4: string, p5: string, p6: string)
    requires p0 == "FATAL" && p1 == " " && p2 == "PAY_RISK" && p3 == ": "
      && p4 == "PaymentService" && p5 == " " && p6 == "down"
    ensures var line := p0 + (p1 + (p2 + (p3 + (p4 + (p5 + p6))))); ExtractLogLevel(line) == "FATAL"
    ensures var line := p0 + (p1 + (p2 + (p3 + (p4 + (p5 + p6))))); ExtractErrorCodes(line) == ["FATAL", "PAY_RISK"]
    ensures var line := p0 + (p1 + (p2 + (p3 + (p4 + (p5 + p6))))); ExtractServices(line) == ["PaymentService"]
  {
    var line := p0 + (p1 + (p2 + (p3 + (p4 + (p5 + p6)))));
    PaymentDownWords(p0, p1, p2, p3, p4, p5, p6);
    assert Upper("FATAL") == "FATAL";
    PaymentDownCodes();
    PaymentDownServices();
    FirstListedLevelWins(line, 0);
  }

  lemma PaymentDownCodes()
    ensures FilterWords(["FATAL", "PAY_RISK", "PaymentService", "down"], IsErrorCode) == ["FATAL", "PAY_RISK"]
  {
    LongWordNotStopWord("FATAL");
    LongWordNotStopWord("PAY_RISK");
    assert IsCodeToken("FATAL") && IsCodeToken("PAY_RISK");
    assert "PaymentService"[1] == 'a' && "down"[0] == 'd';
    assert !IsCodeToken("PaymentService") && !IsCodeToken("down");
    FilterFour("FATAL", "PAY_RISK", "PaymentService", "down", IsErrorCode);
  }

  /** Every stop word has at most four characters. */
  lemma LongWordNotStopWord(w: string)
    requires |w| > 4
    ensures w !in ErrorCodeStopWords
  {
    forall x | x in ErrorCodeStopWords
      ensures |x| <= 4
    {
    }
  }

  lemma PaymentDownServices()
    ensures FilterWords(["FATAL", "PAY_RISK", "PaymentService", "down"], IsServiceToken) == ["PaymentService"]
  {
    assert IsServiceToken("PaymentService");
    assert !IsServiceToken("FATAL") && !IsServiceToken("PAY_RISK") && !IsServiceToken("down");
    FilterFour("FATAL", "PAY_RISK", "PaymentService", "down", IsServiceToken);
  }
}
