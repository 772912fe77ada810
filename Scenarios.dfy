/**
 The dictionary and the sentence of the repository's conversion unit test,
 worked through the model: the five lines parse as the comments in them say,
 the table enumerates its keys longest first, and the substitution rewrites
 類別名稱 to 類名 before the shorter key 類別 can match inside it.
 */
module Scenarios {
  import opened Wrappers
  import opened StringOps
  import opened MappingOrder
  import opened PhraseTable
  import ChineseConverter

  /** The dictionary lines of the unit test. */
  const TestLines: seq<string> := [
    "擴充方法=擴展方法;extension method",
    "預設=默認=default",
    "建構函式=構造函數",
    "類別名稱=類名",
    "類別=類;class"
  ]

  /** The keys of the resulting table, in comparer order. */
  const TestKeys: seq<string> := ["建構函式", "擴充方法", "類別名稱", "預設", "類別"]

  const TestMap: map<string, string> := map[
    "擴充方法" := "擴展方法",
    "預設" := "默認",
    "建構函式" := "構造函數",
    "類別名稱" := "類名",
    "類別" := "類"
  ]

  /** The sentence of the unit test, written in the pieces the substitution
      treats one by one. */
  const TestInput: string := "Convert() 是一個" + "擴充方法" + "，它所" + "擴" + "充的" + "類別名稱" + "是 Foo。Foo " + "類別" + "有提供" + "預設" + "建構函式" + "。"

  /** The text handed to the script conversion afterwards. */
  const TestOutput: string := "Convert() 是一個" + "擴展方法" + "，它所" + "擴" + "充的" + "類名" + "是 Foo。Foo " + "類" + "有提供" + "默認" + "構造函數" + "。"

  /** Both comment separators cut the target, `;` and `=`. */
  lemma ParseLine0()
    ensures ParseLine("擴充方法=擴展方法;extension method") == Some(("擴充方法", "擴展方法"))
  {
    var source, target, comment := "擴充方法", "擴展方法", ";extension method";
    assert "擴充方法=擴展方法;extension method" == source + "=" + target + comment;
    ParseFormat(source, target, comment);
  }

  lemma ParseLine1()
    ensures ParseLine("預設=默認=default") == Some(("預設", "默認"))
  {
    var source, target, comment := "預設", "默認", "=default";
    assert "預設=默認=default" == source + "=" + target + comment;
    ParseFormat(source, target, comment);
  }

  lemma ParseLine2()
    ensures ParseLine("建構函式=構造函數") == Some(("建構函式", "構造函數"))
  {
    var source, target, comment := "建構函式", "構造函數", "";
    assert "建構函式=構造函數" == source + "=" + target + comment;
    ParseFormat(source, target, comment);
  }

  lemma ParseLine3()
    ensures ParseLine("類別名稱=類名") == Some(("類別名稱", "類名"))
  {
    var source, target, comment := "類別名稱", "類名", "";
    assert "類別名稱=類名" == source + "=" + target + comment;
    ParseFormat(source, target, comment);
  }

  lemma ParseLine4()
    ensures ParseLine("類別=類;class") == Some(("類別", "類"))
  {
    var source, target, comment := "類別", "類", ";class";
    assert "類別=類;class" == source + "=" + target + comment;
    ParseFormat(source, target, comment);
  }

  /** Lines that add nothing. */
  lemma ParseEdgeCases()
    ensures ParseLine("; 註解") == None
    ensures ParseLine(" \t") == None
    ensures ParseLine("=默認") == None
    ensures ParseLine("預設") == None
  {
    ParseLineNone("; 註解");
    assert StartsWith("; 註解", ";");
    ParseLineNone(" \t");
    ParseLineNone("=默認");
    ParseLineNone("預設");
  }

  /** A separator right after `=` does not cut the target: the whole rest of the
      line is the target. */
  lemma ParseLeadingSeparator()
    ensures ParseLine("預設=;default") == Some(("預設", ";default"))
  {
    var source, rest := "預設", ";default";
    assert "預設=;default" == source + "=" + rest;
    ParseLeading(source, rest);
  }

  // The table after each of the first four lines.
  const T1: Table := Table(["擴充方法"], map["擴充方法" := "擴展方法"], false, [])
  const T2: Table := Table(["擴充方法", "預設"], map["擴充方法" := "擴展方法", "預設" := "默認"], false, [])
  const T3: Table := Table(["建構函式", "擴充方法", "預設"],
    map["擴充方法" := "擴展方法", "預設" := "默認", "建構函式" := "構造函數"], false, [])
  const T4: Table := Table(["建構函式", "擴充方法", "類別名稱", "預設"],
    map["擴充方法" := "擴展方法", "預設" := "默認", "建構函式" := "構造函數", "類別名稱" := "類名"], false, [])
  const T5: Table := Table(TestKeys, TestMap, false, [])

  /** A line whose parsed source is new, has a character `source[c]` that no
      target holds, and goes at place `j` of the key order. */
  lemma AcceptLine(t: Table, line: string, source: string, target: string, c: nat, j: nat)
    requires Valid(t) && ParseLine(line) == Some((source, target))
    requires source !in t.m
    requires c < |source| && forall k :: k in t.m ==> source[c] !in t.m[k]
    requires j <= |t.keys| && forall i :: 0 <= i < j ==> Less(t.keys[i], source)
    requires j < |t.keys| ==> Less(source, t.keys[j])
    ensures AddLine(t, line) == t.(keys := t.keys[..j] + [source] + t.keys[j..], m := t.m[source := target])
  {
    forall k | k in t.m ensures !Contains(t.m[k], source) {
      if Contains(t.m[k], source) {
        ContainsChar(t.m[k], source, c);
      }
    }
    AddAccepted(t, source, target);
    if j < |t.keys| {
      LessAsymmetric(source, t.keys[j]);
    }
    InsertSortedAt(t.keys, source, j);
  }

  lemma AddLine0(t: Table, line: string)
    requires t == Empty() && ParseLine(line) == Some(("擴充方法", "擴展方法"))
    ensures AddLine(t, line) == T1
  {
    AcceptLine(t, line, "擴充方法", "擴展方法", 0, 0);
  }

  lemma ValidT1()
    ensures Valid(T1)
  {
  }

  lemma Fresh1()
    ensures "預設" !in T1.m && forall k :: k in T1.m ==> "預設"[0] !in T1.m[k]
  {
  }

  lemma Place1()
    ensures Less("擴充方法", "預設")
  {
  }

  lemma Inserted1()
    ensures T1.(keys := T1.keys[..1] + ["預設"] + T1.keys[1..], m := T1.m["預設" := "默認"]) == T2
  {
  }

  lemma AddLine1(t: Table, line: string)
    requires t == T1 && ParseLine(line) == Some(("預設", "默認"))
    ensures AddLine(t, line) == T2
  {
    ValidT1();
    Fresh1();
    Place1();
    Inserted1();
    AcceptLine(t, line, "預設", "默認", 0, 1);
  }

  lemma ValidT2()
    ensures Valid(T2)
  {
  }

  lemma Fresh2()
    ensures "建構函式" !in T2.m && forall k :: k in T2.m ==> "建構函式"[0] !in T2.m[k]
  {
  }

  lemma Place2()
    ensures Less("建構函式", "擴充方法")
  {
  }

  lemma Inserted2()
    ensures T2.(keys := T2.keys[..0] + ["建構函式"] + T2.keys[0..], m := T2.m["建構函式" := "構造函數"]) == T3
  {
  }

  /** 建構函式 goes before 擴充方法: same length, and 建 has the smaller code. */
  lemma AddLine2(t: Table, line: string)
    requires t == T2 && ParseLine(line) == Some(("建構函式", "構造函數"))
    ensures AddLine(t, line) == T3
  {
    ValidT2();
    Fresh2();
    Place2();
    Inserted2();
    AcceptLine(t, line, "建構函式", "構造函數", 0, 0);
  }

  lemma ValidT3()
    ensures Valid(T3)
  {
    assert Less("建構函式", "擴充方法");
  }

  lemma Fresh3()
    ensures "類別名稱" !in T3.m && forall k :: k in T3.m ==> "類別名稱"[0] !in T3.m[k]
  {
  }

  lemma Place3()
    ensures Less("建構函式", "類別名稱") && Less("擴充方法", "類別名稱") && Less("類別名稱", "預設")
  {
  }

  lemma Inserted3()
    ensures T3.(keys := T3.keys[..2] + ["類別名稱"] + T3.keys[2..], m := T3.m["類別名稱" := "類名"]) == T4
  {
  }

  /** 類別名稱 goes before the shorter 預設. */
  lemma AddLine3(t: Table, line: string)
    requires t == T3 && ParseLine(line) == Some(("類別名稱", "類名"))
    ensures AddLine(t, line) == T4
  {
    ValidT3();
    Fresh3();
    Place3();
    Inserted3();
    AcceptLine(t, line, "類別名稱", "類名", 0, 2);
  }

  lemma ValidT4()
    ensures Valid(T4)
  {
    assert Less("建構函式", "擴充方法") && Less("擴充方法", "類別名稱");
  }

  lemma Fresh4()
    ensures "類別" !in T4.m && forall k :: k in T4.m ==> "類別"[1] !in T4.m[k]
  {
  }

  lemma Place4()
    ensures Less("建構函式", "類別") && Less("擴充方法", "類別") && Less("類別名稱", "類別") && Less("預設", "類別")
  {
  }

  lemma Inserted4()
    ensures T4.(keys := T4.keys[..4] + ["類別"] + T4.keys[4..], m := T4.m["類別" := "類"]) == T5
  {
  }

  /** 類別 is not refused although the target 類名 starts with 類: the nested
      check looks for the whole source, and 別 occurs in no target. */
  lemma AddLine4(t: Table, line: string)
    requires t == T4 && ParseLine(line) == Some(("類別", "類"))
    ensures AddLine(t, line) == T5
  {
    ValidT4();
    Fresh4();
    Place4();
    Inserted4();
    AcceptLine(t, line, "類別", "類", 1, 4);
  }

  // Loading the remaining lines from each intermediate table.

  lemma LoadFrom4(l: seq<string>)
    requires |l| == 1
    requires ParseLine(l[0]) == Some(("類別", "類"))
    ensures LoadLines(T4, l) == T5
  {
    AddLine4(T4, l[0]);
  }

  lemma LoadFrom3(l: seq<string>)
    requires |l| == 2
    requires ParseLine(l[0]) == Some(("類別名稱", "類名"))
    requires ParseLine(l[1]) == Some(("類別", "類"))
    ensures LoadLines(T3, l) == T5
  {
    AddLine3(T3, l[0]);
    LoadFrom4(l[1..]);
  }

  lemma LoadFrom2(l: seq<string>)
    requires |l| == 3
    requires ParseLine(l[0]) == Some(("建構函式", "構造函數"))
    requires ParseLine(l[1]) == Some(("類別名稱", "類名"))
    requires ParseLine(l[2]) == Some(("類別", "類"))
    ensures LoadLines(T2, l) == T5
  {
    AddLine2(T2, l[0]);
    LoadFrom3(l[1..]);
  }

  lemma LoadFrom1(l: seq<string>)
    requires |l| == 4
    requires ParseLine(l[0]) == Some(("預設", "默認"))
    requires ParseLine(l[1]) == Some(("建構函式", "構造函數"))
    requires ParseLine(l[2]) == Some(("類別名稱", "類名"))
    requires ParseLine(l[3]) == Some(("類別", "類"))
    ensures LoadLines(T1, l) == T5
  {
    AddLine1(T1, l[0]);
    LoadFrom2(l[1..]);
  }

  lemma LoadFrom0(l: seq<string>)
    requires |l| == 5
    requires ParseLine(l[0]) == Some(("擴充方法", "擴展方法"))
    requires ParseLine(l[1]) == Some(("預設", "默認"))
    requires ParseLine(l[2]) == Some(("建構函式", "構造函數"))
    requires ParseLine(l[3]) == Some(("類別名稱", "類名"))
    requires ParseLine(l[4]) == Some(("類別", "類"))
    ensures LoadLines(Empty(), l) == T5
  {
    AddLine0(Empty(), l[0]);
    LoadFrom1(l[1..]);
  }

  lemma TestLine0()
    ensures |TestLines| == 5 && ParseLine(TestLines[0]) == Some(("擴充方法", "擴展方法"))
  {
    ParseLine0();
  }

  lemma TestLine1()
    ensures |TestLines| == 5 && ParseLine(TestLines[1]) == Some(("預設", "默認"))
  {
    ParseLine1();
  }

  lemma TestLine2()
    ensures |TestLines| == 5 && ParseLine(TestLines[2]) == Some(("建構函式", "構造函數"))
  {
    ParseLine2();
  }

  lemma TestLine3()
    ensures |TestLines| == 5 && ParseLine(TestLines[3]) == Some(("類別名稱", "類名"))
  {
    ParseLine3();
  }

  lemma TestLine4()
    ensures |TestLines| == 5 && ParseLine(TestLines[4]) == Some(("類別", "類"))
  {
    ParseLine4();
  }

  /** Loading the five lines gives the five mappings, no error and no log, with
      the keys longest first. */
  lemma TestTable()
    ensures LoadLines(Empty(), TestLines) == T5
  {
    TestLine0();
    TestLine1();
    TestLine2();
    TestLine3();
    TestLine4();
    LoadFrom0(TestLines);
  }

  /** A text that differs from `prefix` at position `i` does not start with it. */
  lemma DiffersAt(s: string, prefix: string, i: nat)
    requires i < |prefix| && i < |s| && s[i] != prefix[i]
    ensures !StartsWith(s, prefix)
  {
    if |prefix| <= |s| {
      assert s[..|prefix|][i] == s[i];
    }
  }

  // The sentence after each key's replacement, in key order.
  const S1: string := "Convert() 是一個" + "擴充方法" + "，它所" + "擴" + "充的" + "類別名稱" + "是 Foo。Foo " + "類別" + "有提供" + "預設" + "構造函數" + "。"
  const S2: string := "Convert() 是一個" + "擴展方法" + "，它所" + "擴" + "充的" + "類別名稱" + "是 Foo。Foo " + "類別" + "有提供" + "預設" + "構造函數" + "。"
  const S3: string := "Convert() 是一個" + "擴展方法" + "，它所" + "擴" + "充的" + "類名" + "是 Foo。Foo " + "類別" + "有提供" + "預設" + "構造函數" + "。"
  const S4: string := "Convert() 是一個" + "擴展方法" + "，它所" + "擴" + "充的" + "類名" + "是 Foo。Foo " + "類別" + "有提供" + "默認" + "構造函數" + "。"

  lemma Split0In()
    ensures TestInput == "Convert() 是一個" + ("擴充方法" + ("，它所" + ("擴" + ("充的" + ("類別名稱" + ("是 Foo。Foo " + ("類別" + ("有提供" + ("預設" + ("建構函式" + ("。")))))))))))
  {
  }

  lemma Split0Out()
    ensures S1 == "Convert() 是一個" + ("擴充方法" + ("，它所" + ("擴" + ("充的" + ("類別名稱" + ("是 Foo。Foo " + ("類別" + ("有提供" + ("預設" + ("構造函數" + ("。")))))))))))
  {
  }

  lemma Split0Free()
    ensures '建' !in "Convert() 是一個"
      && '建' !in "擴充方法"
      && '建' !in "，它所"
      && '建' !in "擴"
      && '建' !in "充的"
      && '建' !in "類別名稱"
      && '建' !in "是 Foo。Foo "
      && '建' !in "類別"
      && '建' !in "有提供"
      && '建' !in "預設"
      && '建' !in "。"
  {
  }

  lemma Replace0(text: string)
    requires text == TestInput
    ensures ReplaceAll(text, "建構函式", "構造函數") == S1
  {
    Split0In();
    Split0Out();
    Split0Free();
    ReplaceAllCopies("Convert() 是一個", "擴充方法" + ("，它所" + ("擴" + ("充的" + ("類別名稱" + ("是 Foo。Foo " + ("類別" + ("有提供" + ("預設" + ("建構函式" + ("。")))))))))), "建構函式", "構造函數");
    ReplaceAllCopies("擴充方法", "，它所" + ("擴" + ("充的" + ("類別名稱" + ("是 Foo。Foo " + ("類別" + ("有提供" + ("預設" + ("建構函式" + ("。"))))))))), "建構函式", "構造函數");
    ReplaceAllCopies("，它所", "擴" + ("充的" + ("類別名稱" + ("是 Foo。Foo " + ("類別" + ("有提供" + ("預設" + ("建構函式" + ("。")))))))), "建構函式", "構造函數");
    ReplaceAllCopies("擴", "充的" + ("類別名稱" + ("是 Foo。Foo " + ("類別" + ("有提供" + ("預設" + ("建構函式" + ("。"))))))), "建構函式", "構造函數");
    ReplaceAllCopies("充的", "類別名稱" + ("是 Foo。Foo " + ("類別" + ("有提供" + ("預設" + ("建構函式" + ("。")))))), "建構函式", "構造函數");
    ReplaceAllCopies("類別名稱", "是 Foo。Foo " + ("類別" + ("有提供" + ("預設" + ("建構函式" + ("。"))))), "建構函式", "構造函數");
    ReplaceAllCopies("是 Foo。Foo ", "類別" + ("有提供" + ("預設" + ("建構函式" + ("。")))), "建構函式", "構造函數");
    ReplaceAllCopies("類別", "有提供" + ("預設" + ("建構函式" + ("。"))), "建構函式", "構造函數");
    ReplaceAllCopies("有提供", "預設" + ("建構函式" + ("。")), "建構函式", "構造函數");
    ReplaceAllCopies("預設", "建構函式" + ("。"), "建構函式", "構造函數");
    ReplaceAllAtStart("。", "建構函式", "構造函數");
    ReplaceAllFree("。", "建構函式", "構造函數");
  }

  lemma Split1In()
    ensures S1 == "Convert() 是一個" + ("擴充方法" + ("，它所" + ("擴" + ("充的" + ("類別名稱" + ("是 Foo。Foo " + ("類別" + ("有提供" + ("預設" + ("構造函數" + ("。")))))))))))
  {
  }

  lemma Split1Out()
    ensures S2 == "Convert() 是一個" + ("擴展方法" + ("，它所" + ("擴" + ("充的" + ("類別名稱" + ("是 Foo。Foo " + ("類別" + ("有提供" + ("預設" + ("構造函數" + ("。")))))))))))
  {
  }

  lemma Split1Free()
    ensures '擴' !in "Convert() 是一個"
      && '擴' !in "，它所"
      && !StartsWith("擴" + ("充的" + ("類別名稱" + ("是 Foo。Foo " + ("類別" + ("有提供" + ("預設" + ("構造函數" + ("。")))))))), "擴充方法")
      && '擴' !in "充的"
      && '擴' !in "類別名稱"
      && '擴' !in "是 Foo。Foo "
      && '擴' !in "類別"
      && '擴' !in "有提供"
      && '擴' !in "預設"
      && '擴' !in "構造函數"
      && '擴' !in "。"
  {
    DiffersAt("擴" + ("充的" + ("類別名稱" + ("是 Foo。Foo " + ("類別" + ("有提供" + ("預設" + ("構造函數" + ("。")))))))), "擴充方法", 2);
  }

  /** 擴充 followed by 的 is left alone. */
  lemma Replace1(text: string)
    requires text == S1
    ensures ReplaceAll(text, "擴充方法", "擴展方法") == S2
  {
    Split1In();
    Split1Out();
    Split1Free();
    ReplaceAllCopies("Convert() 是一個", "擴充方法" + ("，它所" + ("擴" + ("充的" + ("類別名稱" + ("是 Foo。Foo " + ("類別" + ("有提供" + ("預設" + ("構造函數" + ("。")))))))))), "擴充方法", "擴展方法");
    ReplaceAllAtStart("，它所" + ("擴" + ("充的" + ("類別名稱" + ("是 Foo。Foo " + ("類別" + ("有提供" + ("預設" + ("構造函數" + ("。"))))))))), "擴充方法", "擴展方法");
    ReplaceAllCopies("，它所", "擴" + ("充的" + ("類別名稱" + ("是 Foo。Foo " + ("類別" + ("有提供" + ("預設" + ("構造函數" + ("。")))))))), "擴充方法", "擴展方法");
    ReplaceAllSkips('擴', "充的" + ("類別名稱" + ("是 Foo。Foo " + ("類別" + ("有提供" + ("預設" + ("構造函數" + ("。"))))))), "擴充方法", "擴展方法");
    ReplaceAllCopies("充的", "類別名稱" + ("是 Foo。Foo " + ("類別" + ("有提供" + ("預設" + ("構造函數" + ("。")))))), "擴充方法", "擴展方法");
    ReplaceAllCopies("類別名稱", "是 Foo。Foo " + ("類別" + ("有提供" + ("預設" + ("構造函數" + ("。"))))), "擴充方法", "擴展方法");
    ReplaceAllCopies("是 Foo。Foo ", "類別" + ("有提供" + ("預設" + ("構造函數" + ("。")))), "擴充方法", "擴展方法");
    ReplaceAllCopies("類別", "有提供" + ("預設" + ("構造函數" + ("。"))), "擴充方法", "擴展方法");
    ReplaceAllCopies("有提供", "預設" + ("構造函數" + ("。")), "擴充方法", "擴展方法");
    ReplaceAllCopies("預設", "構造函數" + ("。"), "擴充方法", "擴展方法");
    ReplaceAllCopies("構造函數", "。", "擴充方法", "擴展方法");
    ReplaceAllFree("。", "擴充方法", "擴展方法");
  }

  lemma Split2In()
    ensures S2 == "Convert() 是一個" + ("擴展方法" + ("，它所" + ("擴" + ("充的" + ("類別名稱" + ("是 Foo。Foo " + ("類" + ("別" + ("有提供" + ("預設" + ("構造函數" + ("。"))))))))))))
  {
    assert "類別" == "類" + "別";
  }

  lemma Split2Out()
    ensures S3 == "Convert() 是一個" + ("擴展方法" + ("，它所" + ("擴" + ("充的" + ("類名" + ("是 Foo。Foo " + ("類" + ("別" + ("有提供" + ("預設" + ("構造函數" + ("。"))))))))))))
  {
    assert "類別" == "類" + "別";
  }

  lemma Split2Free()
    ensures '類' !in "Convert() 是一個"
      && '類' !in "擴展方法"
      && '類' !in "，它所"
      && '類' !in "擴"
      && '類' !in "充的"
      && '類' !in "是 Foo。Foo "
      && !StartsWith("類" + ("別" + ("有提供" + ("預設" + ("構造函數" + ("。"))))), "類別名稱")
      && '類' !in "別"
      && '類' !in "有提供"
      && '類' !in "預設"
      && '類' !in "構造函數"
      && '類' !in "。"
  {
    DiffersAt("類" + ("別" + ("有提供" + ("預設" + ("構造函數" + ("。"))))), "類別名稱", 2);
  }

  /** 類別名稱 becomes 類名, and the later 類別 is not a 類別名稱. */
  lemma Replace2(text: string)
    requires text == S2
    ensures ReplaceAll(text, "類別名稱", "類名") == S3
  {
    Split2In();
    Split2Out();
    Split2Free();
    ReplaceAllCopies("Convert() 是一個", "擴展方法" + ("，它所" + ("擴" + ("充的" + ("類別名稱" + ("是 Foo。Foo " + ("類" + ("別" + ("有提供" + ("預設" + ("構造函數" + ("。"))))))))))), "類別名稱", "類名");
    ReplaceAllCopies("擴展方法", "，它所" + ("擴" + ("充的" + ("類別名稱" + ("是 Foo。Foo " + ("類" + ("別" + ("有提供" + ("預設" + ("構造函數" + ("。")))))))))), "類別名稱", "類名");
    ReplaceAllCopies("，它所", "擴" + ("充的" + ("類別名稱" + ("是 Foo。Foo " + ("類" + ("別" + ("有提供" + ("預設" + ("構造函數" + ("。"))))))))), "類別名稱", "類名");
    ReplaceAllCopies("擴", "充的" + ("類別名稱" + ("是 Foo。Foo " + ("類" + ("別" + ("有提供" + ("預設" + ("構造函數" + ("。")))))))), "類別名稱", "類名");
    ReplaceAllCopies("充的", "類別名稱" + ("是 Foo。Foo " + ("類" + ("別" + ("有提供" + ("預設" + ("構造函數" + ("。"))))))), "類別名稱", "類名");
    ReplaceAllAtStart("是 Foo。Foo " + ("類" + ("別" + ("有提供" + ("預設" + ("構造函數" + ("。")))))), "類別名稱", "類名");
    ReplaceAllCopies("是 Foo。Foo ", "類" + ("別" + ("有提供" + ("預設" + ("構造函數" + ("。"))))), "類別名稱", "類名");
    ReplaceAllSkips('類', "別" + ("有提供" + ("預設" + ("構造函數" + ("。")))), "類別名稱", "類名");
    ReplaceAllCopies("別", "有提供" + ("預設" + ("構造函數" + ("。"))), "類別名稱", "類名");
    ReplaceAllCopies("有提供", "預設" + ("構造函數" + ("。")), "類別名稱", "類名");
    ReplaceAllCopies("預設", "構造函數" + ("。"), "類別名稱", "類名");
    ReplaceAllCopies("構造函數", "。", "類別名稱", "類名");
    ReplaceAllFree("。", "類別名稱", "類名");
  }

  lemma Split3In()
    ensures S3 == "Convert() 是一個" + ("擴展方法" + ("，它所" + ("擴" + ("充的" + ("類名" + ("是 Foo。Foo " + ("類別" + ("有提供" + ("預設" + ("構造函數" + ("。")))))))))))
  {
  }

  lemma Split3Out()
    ensures S4 == "Convert() 是一個" + ("擴展方法" + ("，它所" + ("擴" + ("充的" + ("類名" + ("是 Foo。Foo " + ("類別" + ("有提供" + ("默認" + ("構造函數" + ("。")))))))))))
  {
  }

  lemma Split3Free()
    ensures '預' !in "Convert() 是一個"
      && '預' !in "擴展方法"
      && '預' !in "，它所"
      && '預' !in "擴"
      && '預' !in "充的"
      && '預' !in "類名"
      && '預' !in "是 Foo。Foo "
      && '預' !in "類別"
      && '預' !in "有提供"
      && '預' !in "構造函數"
      && '預' !in "。"
  {
  }

  lemma Replace3(text: string)
    requires text == S3
    ensures ReplaceAll(text, "預設", "默認") == S4
  {
    Split3In();
    Split3Out();
    Split3Free();
    ReplaceAllCopies("Convert() 是一個", "擴展方法" + ("，它所" + ("擴" + ("充的" + ("類名" + ("是 Foo。Foo " + ("類別" + ("有提供" + ("預設" + ("構造函數" + ("。")))))))))), "預設", "默認");
    ReplaceAllCopies("擴展方法", "，它所" + ("擴" + ("充的" + ("類名" + ("是 Foo。Foo " + ("類別" + ("有提供" + ("預設" + ("構造函數" + ("。"))))))))), "預設", "默認");
    ReplaceAllCopies("，它所", "擴" + ("充的" + ("類名" + ("是 Foo。Foo " + ("類別" + ("有提供" + ("預設" + ("構造函數" + ("。")))))))), "預設", "默認");
    ReplaceAllCopies("擴", "充的" + ("類名" + ("是 Foo。Foo " + ("類別" + ("有提供" + ("預設" + ("構造函數" + ("。"))))))), "預設", "默認");
    ReplaceAllCopies("充的", "類名" + ("是 Foo。Foo " + ("類別" + ("有提供" + ("預設" + ("構造函數" + ("。")))))), "預設", "默認");
    ReplaceAllCopies("類名", "是 Foo。Foo " + ("類別" + ("有提供" + ("預設" + ("構造函數" + ("。"))))), "預設", "默認");
    ReplaceAllCopies("是 Foo。Foo ", "類別" + ("有提供" + ("預設" + ("構造函數" + ("。")))), "預設", "默認");
    ReplaceAllCopies("類別", "有提供" + ("預設" + ("構造函數" + ("。"))), "預設", "默認");
    ReplaceAllCopies("有提供", "預設" + ("構造函數" + ("。")), "預設", "默認");
    ReplaceAllAtStart("構造函數" + ("。"), "預設", "默認");
    ReplaceAllCopies("構造函數", "。", "預設", "默認");
    ReplaceAllFree("。", "預設", "默認");
  }

  lemma Split4In()
    ensures S4 == "Convert() 是一個" + ("擴展方法" + ("，它所" + ("擴" + ("充的" + ("類" + ("名" + ("是 Foo。Foo " + ("類別" + ("有提供" + ("默認" + ("構造函數" + ("。"))))))))))))
  {
    assert "類名" == "類" + "名";
  }

  lemma Split4Out()
    ensures TestOutput == "Convert() 是一個" + ("擴展方法" + ("，它所" + ("擴" + ("充的" + ("類" + ("名" + ("是 Foo。Foo " + ("類" + ("有提供" + ("默認" + ("構造函數" + ("。"))))))))))))
  {
    assert "類名" == "類" + "名";
  }

  lemma Split4Free()
    ensures '類' !in "Convert() 是一個"
      && '類' !in "擴展方法"
      && '類' !in "，它所"
      && '類' !in "擴"
      && '類' !in "充的"
      && !StartsWith("類" + ("名" + ("是 Foo。Foo " + ("類別" + ("有提供" + ("默認" + ("構造函數" + ("。"))))))), "類別")
      && '類' !in "名"
      && '類' !in "是 Foo。Foo "
      && '類' !in "有提供"
      && '類' !in "默認"
      && '類' !in "構造函數"
      && '類' !in "。"
  {
    DiffersAt("類" + ("名" + ("是 Foo。Foo " + ("類別" + ("有提供" + ("默認" + ("構造函數" + ("。"))))))), "類別", 1);
  }

  /** The 類 left by 類名 is not followed by 別, so only the second 類別 is
      replaced. */
  lemma Replace4(text: string)
    requires text == S4
    ensures ReplaceAll(text, "類別", "類") == TestOutput
  {
    Split4In();
    Split4Out();
    Split4Free();
    ReplaceAllCopies("Convert() 是一個", "擴展方法" + ("，它所" + ("擴" + ("充的" + ("類" + ("名" + ("是 Foo。Foo " + ("類別" + ("有提供" + ("默認" + ("構造函數" + ("。"))))))))))), "類別", "類");
    ReplaceAllCopies("擴展方法", "，它所" + ("擴" + ("充的" + ("類" + ("名" + ("是 Foo。Foo " + ("類別" + ("有提供" + ("默認" + ("構造函數" + ("。")))))))))), "類別", "類");
    ReplaceAllCopies("，它所", "擴" + ("充的" + ("類" + ("名" + ("是 Foo。Foo " + ("類別" + ("有提供" + ("默認" + ("構造函數" + ("。"))))))))), "類別", "類");
    ReplaceAllCopies("擴", "充的" + ("類" + ("名" + ("是 Foo。Foo " + ("類別" + ("有提供" + ("默認" + ("構造函數" + ("。")))))))), "類別", "類");
    ReplaceAllCopies("充的", "類" + ("名" + ("是 Foo。Foo " + ("類別" + ("有提供" + ("默認" + ("構造函數" + ("。"))))))), "類別", "類");
    ReplaceAllSkips('類', "名" + ("是 Foo。Foo " + ("類別" + ("有提供" + ("默認" + ("構造函數" + ("。")))))), "類別", "類");
    ReplaceAllCopies("名", "是 Foo。Foo " + ("類別" + ("有提供" + ("默認" + ("構造函數" + ("。"))))), "類別", "類");
    ReplaceAllCopies("是 Foo。Foo ", "類別" + ("有提供" + ("默認" + ("構造函數" + ("。")))), "類別", "類");
    ReplaceAllAtStart("有提供" + ("默認" + ("構造函數" + ("。"))), "類別", "類");
    ReplaceAllCopies("有提供", "默認" + ("構造函數" + ("。")), "類別", "類");
    ReplaceAllCopies("默認", "構造函數" + ("。"), "類別", "類");
    ReplaceAllCopies("構造函數", "。", "類別", "類");
    ReplaceAllFree("。", "類別", "類");
  }

  // Converting with the remaining keys from each intermediate sentence.

  /** One step of the substitution. */
  lemma ConvertStep(keys: seq<string>, m: map<string, string>, text: string, next: string)
    requires KeysMapped(keys, m) && keys != [] && keys[0] != []
    requires ReplaceAll(text, keys[0], m[keys[0]]) == next
    ensures ConvertKeys(keys, m, text) == ConvertKeys(keys[1..], m, next)
  {
  }

  lemma KeyAt0()
    ensures KeysMapped(TestKeys[0..], TestMap) && |TestKeys[0..]| == 5
    ensures TestKeys[0..][0] == "建構函式" && TestMap["建構函式"] == "構造函數" && TestKeys[0..][1..] == TestKeys[1..]
  {
  }

  lemma KeyAt1()
    ensures KeysMapped(TestKeys[1..], TestMap) && |TestKeys[1..]| == 4
    ensures TestKeys[1..][0] == "擴充方法" && TestMap["擴充方法"] == "擴展方法" && TestKeys[1..][1..] == TestKeys[2..]
  {
  }

  lemma KeyAt2()
    ensures KeysMapped(TestKeys[2..], TestMap) && |TestKeys[2..]| == 3
    ensures TestKeys[2..][0] == "類別名稱" && TestMap["類別名稱"] == "類名" && TestKeys[2..][1..] == TestKeys[3..]
  {
  }

  lemma KeyAt3()
    ensures KeysMapped(TestKeys[3..], TestMap) && |TestKeys[3..]| == 2
    ensures TestKeys[3..][0] == "預設" && TestMap["預設"] == "默認" && TestKeys[3..][1..] == TestKeys[4..]
  {
  }

  lemma KeyAt4()
    ensures KeysMapped(TestKeys[4..], TestMap) && |TestKeys[4..]| == 1
    ensures TestKeys[4..][0] == "類別" && TestMap["類別"] == "類" && TestKeys[4..][1..] == TestKeys[5..]
  {
  }

  lemma ConvertFrom4(keys: seq<string>, text: string)
    requires keys == TestKeys[4..] && text == S4
    ensures ConvertKeys(keys, TestMap, text) == Some(TestOutput)
  {
    KeyAt4();
    Replace4(text);
    ConvertStep(keys, TestMap, text, TestOutput);
    assert keys[1..] == [];
  }

  lemma ConvertFrom3(keys: seq<string>, text: string)
    requires keys == TestKeys[3..] && text == S3
    ensures ConvertKeys(keys, TestMap, text) == Some(TestOutput)
  {
    KeyAt3();
    Replace3(text);
    ConvertStep(keys, TestMap, text, S4);
    ConvertFrom4(keys[1..], S4);
  }

  lemma ConvertFrom2(keys: seq<string>, text: string)
    requires keys == TestKeys[2..] && text == S2
    ensures ConvertKeys(keys, TestMap, text) == Some(TestOutput)
  {
    KeyAt2();
    Replace2(text);
    ConvertStep(keys, TestMap, text, S3);
    ConvertFrom3(keys[1..], S3);
  }

  lemma ConvertFrom1(keys: seq<string>, text: string)
    requires keys == TestKeys[1..] && text == S1
    ensures ConvertKeys(keys, TestMap, text) == Some(TestOutput)
  {
    KeyAt1();
    Replace1(text);
    ConvertStep(keys, TestMap, text, S2);
    ConvertFrom2(keys[1..], S2);
  }

  lemma ConvertFrom0(keys: seq<string>, text: string)
    requires keys == TestKeys[0..] && text == TestInput
    ensures ConvertKeys(keys, TestMap, text) == Some(TestOutput)
  {
    KeyAt0();
    Replace0(text);
    ConvertStep(keys, TestMap, text, S1);
    ConvertFrom1(keys[1..], S1);
  }

  /** The unit test's sentence: the longer key 類別名稱 is replaced first, so
      類別名稱 becomes 類名 and not 類名稱; 擴充 alone is not a key and stays. */
  lemma TestConvert()
    ensures Convert(LoadLines(Empty(), TestLines), TestInput) == Some(TestOutput)
  {
    TestTable();
    assert TestKeys[0..] == TestKeys;
    ConvertFrom0(TestKeys, TestInput);
  }

  /** The unit test's steps, on the class: add the five lines one by one, then convert. */
  method TestConvertOnDictionary() returns (r: Option<string>, hasError: bool)
    ensures r == Some(TestOutput) && !hasError
  {
    var d := new ChineseConverter.TSChineseDictionary();
    d.AddLine(TestLines[0]);
    d.AddLine(TestLines[1]);
    d.AddLine(TestLines[2]);
    d.AddLine(TestLines[3]);
    d.AddLine(TestLines[4]);
    assert TestLines == [TestLines[0], TestLines[1], TestLines[2], TestLines[3], TestLines[4]];
    assert d.State() == LoadLines(Empty(), TestLines) by {
      assert TestLines[1..] == [TestLines[1], TestLines[2], TestLines[3], TestLines[4]];
      assert TestLines[2..] == [TestLines[2], TestLines[3], TestLines[4]];
      assert TestLines[3..] == [TestLines[3], TestLines[4]];
      assert TestLines[4..] == [TestLines[4]];
    }
    TestConvert();
    TestTable();
    r := d.Convert(TestInput);
    hasError := d.HasError();
  }
}
