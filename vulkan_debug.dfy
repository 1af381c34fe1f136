/**
 * The Vulkan debug-messenger callback that both Linux composition roots
 * install in debug builds. It turns a message severity, a set of message-type
 * flags and the message text into one log line, and always tells the
 * validation layer not to abort the call that triggered the message.
 *
 * The bit values are those of the VK_EXT_debug_utils extension (Vulkan
 * specification, "Debug Messengers" in the Debugging chapter).
 */
module VulkanDebug {
  import opened Common

  // VkDebugUtilsMessageSeverityFlagBitsEXT. The callback compares the
  // severity numerically, so it is modelled as the enum's underlying int.
  const SeverityVerbose: int32 := 0x1
  const SeverityInfo: int32 := 0x10
  const SeverityWarning: int32 := 0x100
  const SeverityError: int32 := 0x1000

  // VkDebugUtilsMessageTypeFlagBitsEXT; the flags word is a uint32_t.
  const TypeGeneral: bv32 := 0x1
  const TypeValidation: bv32 := 0x2
  const TypePerformance: bv32 := 0x4
  /** The three type flags the callback knows how to name. */
  const KnownTypes: bv32 := TypePerformance | TypeValidation | TypeGeneral

  /** VK_FALSE as a VkBool32 (a uint32_t). */
  const VkFalse: bv32 := 0

  const LayerPrefix := "[LAYER] "

  /** The severity label: the first threshold, from ERROR down, that the severity reaches. */
  function SeverityLabel(severity: int32): string
  {
    if severity >= SeverityError then "[ERROR]"
    else if severity >= SeverityWarning then "[WARNING]"
    else if severity >= SeverityInfo then "[INFO]"
    else if severity >= SeverityVerbose then "[VERBOSE]"
    else "[UNKNOWN]"
  }

  /** The severity thresholds with their labels, listed in no particular order. */
  const Thresholds: seq<(int32, string)> :=
    [(SeverityVerbose, "[VERBOSE]"), (SeverityInfo, "[INFO]"), (SeverityWarning, "[WARNING]"), (SeverityError, "[ERROR]")]

  /** `severity` reaches threshold `i` of the table and no greater one. */
  ghost predicate HighestReached(severity: int32, i: nat)
    requires i < |Thresholds|
  {
    && Thresholds[i].0 <= severity
    && forall j :: 0 <= j < |Thresholds| && Thresholds[i].0 < Thresholds[j].0 ==> severity < Thresholds[j].0
  }

  /** The label is that of the highest threshold reached, and "[UNKNOWN]" exactly when none is reached. */
  lemma SeverityLabelIsHighestThreshold(severity: int32)
    ensures forall i :: 0 <= i < |Thresholds| ==> (SeverityLabel(severity) == Thresholds[i].1 <==> HighestReached(severity, i))
    ensures SeverityLabel(severity) == "[UNKNOWN]" <==> forall j :: 0 <= j < |Thresholds| ==> severity < Thresholds[j].0
  {
    LabelsDistinct();
    forall i | 0 <= i < |Thresholds|
      ensures SeverityLabel(severity) == Thresholds[i].1 <==> HighestReached(severity, i)
    {
      assert Thresholds[0].0 < Thresholds[1].0 < Thresholds[2].0 < Thresholds[3].0;
    }
    assert Thresholds[0].0 == SeverityVerbose;
  }

  lemma LabelsDistinct()
    ensures "[WARNING]" != "[VERBOSE]" && "[WARNING]" != "[UNKNOWN]" && "[VERBOSE]" != "[UNKNOWN]"
  {
    assert "[WARNING]"[1] != "[VERBOSE]"[1] && "[WARNING]"[1] != "[UNKNOWN]"[1] && "[VERBOSE]"[1] != "[UNKNOWN]"[1];
  }

  /** How severe a label is: 0 for "[UNKNOWN]" up to 4 for "[ERROR]". */
  function LabelRank(text: string): nat
  {
    if text == "[ERROR]" then 4
    else if text == "[WARNING]" then 3
    else if text == "[INFO]" then 2
    else if text == "[VERBOSE]" then 1
    else 0
  }

  /** A more severe message never receives a less severe label. */
  lemma SeverityLabelMonotone(a: int32, b: int32)
    requires a <= b
    ensures LabelRank(SeverityLabel(a)) <= LabelRank(SeverityLabel(b))
  {
    LabelsDistinct();
  }

  /** What the callback appends after "[": "NAME," for each set flag, in the order PERFORMANCE, VALIDATION, GENERAL. */
  function AppendedFlags(types: bv32): string
  {
    (if types & TypePerformance != 0 then "PERFORMANCE," else "")
    + (if types & TypeValidation != 0 then "VALIDATION," else "")
    + (if types & TypeGeneral != 0 then "GENERAL," else "")
  }

  /**
   * The type label, built as the callback builds it: "[" followed by the
   * appended flag names; the last character is dropped when anything was
   * appended; then "]".
   */
  function TypeLabel(types: bv32): (r: string)
    ensures 2 <= |r| && r[0] == '[' && r[|r| - 1] == ']'
    ensures r[|r| - 2] != ','
  {
    var listed := "[" + AppendedFlags(types);
    var trimmed := if |listed| > 1 then listed[..|listed| - 1] else listed;
    trimmed + "]"
  }

  /** The named type flags in the order the label lists them. */
  const TypeFlags: seq<(bv32, string)> :=
    [(TypePerformance, "PERFORMANCE"), (TypeValidation, "VALIDATION"), (TypeGeneral, "GENERAL")]

  /** The names of the flags of `flags` that are set in `types`, in table order. */
  function SetFlagNames(types: bv32, flags: seq<(bv32, string)>): (r: seq<string>)
    ensures |r| <= |flags|
  {
    if flags == [] then []
    else (if types & flags[0].0 != 0 then [flags[0].1] else []) + SetFlagNames(types, flags[1..])
  }

  /** The names joined with commas, without a trailing comma. */
  function Join(names: seq<string>): string
  {
    if |names| == 0 then ""
    else if |names| == 1 then names[0]
    else names[0] + "," + Join(names[1..])
  }

  /** Each name followed by a comma. */
  function TrailingJoin(names: seq<string>): string
  {
    if names == [] then "" else names[0] + "," + TrailingJoin(names[1..])
  }

  /** "NAME," for each flag of the table that is set in `types`, in table order. */
  function FlagText(types: bv32, flags: seq<(bv32, string)>): string
  {
    if flags == [] then ""
    else (if types & flags[0].0 != 0 then flags[0].1 + "," else "") + FlagText(types, flags[1..])
  }

  lemma {:induction false} TrailingJoinAppend(a: seq<string>, b: seq<string>)
    ensures TrailingJoin(a + b) == TrailingJoin(a) + TrailingJoin(b)
  {
    if a == [] {
      assert a + b == b;
    } else {
      assert (a + b)[1..] == a[1..] + b;
      TrailingJoinAppend(a[1..], b);
    }
  }

  /** Dropping the last comma of the comma-terminated list gives the comma-join. */
  lemma {:induction false} TrailingJoinIsJoinPlusComma(names: seq<string>)
    requires names != []
    ensures TrailingJoin(names) == Join(names) + ","
  {
    if |names| > 1 {
      TrailingJoinIsJoinPlusComma(names[1..]);
    }
  }

  /** Appending "NAME," per set flag is the comma-terminated list of the set flags' names. */
  lemma {:induction false} FlagTextIsTrailingJoin(types: bv32, flags: seq<(bv32, string)>)
    ensures FlagText(types, flags) == TrailingJoin(SetFlagNames(types, flags))
  {
    if flags != [] {
      FlagTextIsTrailingJoin(types, flags[1..]);
      var head: seq<string> := if types & flags[0].0 != 0 then [flags[0].1] else [];
      TrailingJoinAppend(head, SetFlagNames(types, flags[1..]));
      assert TrailingJoin(head) == if types & flags[0].0 != 0 then flags[0].1 + "," else "" by {
        if head != [] {
          assert head[1..] == [];
        }
      }
    }
  }

  /** The flag text of a table is its first entry's text followed by the rest's. */
  lemma FlagTextCons(types: bv32, f: (bv32, string), rest: seq<(bv32, string)>)
    ensures FlagText(types, [f] + rest) == (if types & f.0 != 0 then f.1 + "," else "") + FlagText(types, rest)
  {
    assert ([f] + rest)[0] == f && ([f] + rest)[1..] == rest;
  }

  /** The flag text of a three-entry table, spelled out. */
  lemma FlagTextOfThree(types: bv32, f0: (bv32, string), f1: (bv32, string), f2: (bv32, string))
    ensures FlagText(types, [f0, f1, f2])
         == (if types & f0.0 != 0 then f0.1 + "," else "")
          + (if types & f1.0 != 0 then f1.1 + "," else "")
          + (if types & f2.0 != 0 then f2.1 + "," else "")
  {
    var c0 := if types & f0.0 != 0 then f0.1 + "," else "";
    var c1 := if types & f1.0 != 0 then f1.1 + "," else "";
    var c2 := if types & f2.0 != 0 then f2.1 + "," else "";
    FlagTextCons(types, f2, []);
    assert [f2] + [] == [f2];
    FlagTextCons(types, f1, [f2]);
    assert [f1] + [f2] == [f1, f2];
    FlagTextCons(types, f0, [f1, f2]);
    assert [f0] + [f1, f2] == [f0, f1, f2];
    Regroup(c0, c1, c2);
  }

  lemma Regroup(a: string, b: string, c: string)
    ensures a + (b + (c + "")) == a + b + c
  {
    assert c + "" == c;
  }

  /** The callback's three appends are the flag text of `TypeFlags`. */
  lemma AppendedFlagsIsFlagText(types: bv32)
    ensures AppendedFlags(types) == FlagText(types, TypeFlags)
  {
    FlagTextOfThree(types, (TypePerformance, "PERFORMANCE"), (TypeValidation, "VALIDATION"), (TypeGeneral, "GENERAL"));
  }

  /** The type label is "[", the set flags' names joined by commas in the fixed order, and "]". */
  lemma TypeLabelListsSetFlags(types: bv32)
    ensures TypeLabel(types) == "[" + Join(SetFlagNames(types, TypeFlags)) + "]"
  {
    var names := SetFlagNames(types, TypeFlags);
    AppendedFlagsIsFlagText(types);
    FlagTextIsTrailingJoin(types, TypeFlags);
    var listed := "[" + AppendedFlags(types);
    assert listed == "[" + TrailingJoin(names);
    if names != [] {
      TrailingJoinIsJoinPlusComma(names);
      assert listed == "[" + Join(names) + ",";
      assert listed[..|listed| - 1] == "[" + Join(names);
    } else {
      assert listed == "[";
    }
  }

  /** What the callback appends is empty or ends with a comma. */
  lemma AppendedFlagsEndsWithComma(types: bv32)
    ensures var appended := AppendedFlags(types); appended == [] || appended[|appended| - 1] == ','
  {
    var x := if types & TypePerformance != 0 then "PERFORMANCE," else "";
    var y := if types & TypeValidation != 0 then "VALIDATION," else "";
    var z := if types & TypeGeneral != 0 then "GENERAL," else "";
    assert AppendedFlags(types) == x + y + z;
    if z != [] {
      assert (x + y + z)[|x + y + z| - 1] == z[|z| - 1];
    } else if y != [] {
      assert x + y + z == x + y;
      assert (x + y)[|x + y| - 1] == y[|y| - 1];
    } else {
      assert x + y + z == x;
    }
  }

  /** Dropping the trailing comma loses no character but that comma: any other character is in the label exactly when it was appended. */
  lemma TypeLabelChars(types: bv32, c: char)
    requires c != ',' && c != '[' && c != ']'
    ensures c in TypeLabel(types) <==> c in AppendedFlags(types)
  {
    var appended := AppendedFlags(types);
    var listed := "[" + appended;
    AppendedFlagsEndsWithComma(types);
    if appended != [] {
      var kept := appended[..|appended| - 1];
      assert appended == kept + [','];
      assert listed[..|listed| - 1] == "[" + kept;
      assert TypeLabel(types) == "[" + kept + "]";
    } else {
      assert TypeLabel(types) == "[]";
    }
  }

  /** A type label holds 'P' exactly when PERFORMANCE is set. */
  lemma PerformanceListed(types: bv32)
    ensures 'P' in TypeLabel(types) <==> types & TypePerformance != 0
  {
    TypeLabelChars(types, 'P');
    assert "PERFORMANCE,"[0] == 'P';
    assert 'P' !in "VALIDATION," && 'P' !in "GENERAL,";
  }

  /** A type label holds 'V' exactly when VALIDATION is set. */
  lemma ValidationListed(types: bv32)
    ensures 'V' in TypeLabel(types) <==> types & TypeValidation != 0
  {
    TypeLabelChars(types, 'V');
    assert "VALIDATION,"[0] == 'V';
    assert 'V' !in "PERFORMANCE," && 'V' !in "GENERAL,";
  }

  /** A type label holds 'G' exactly when GENERAL is set. */
  lemma GeneralListed(types: bv32)
    ensures 'G' in TypeLabel(types) <==> types & TypeGeneral != 0
  {
    TypeLabelChars(types, 'G');
    assert "GENERAL,"[0] == 'G';
    assert 'G' !in "PERFORMANCE," && 'G' !in "VALIDATION,";
  }

  /** Two flag words agree on the known flags exactly when they agree on each of the three. */
  lemma KnownFlagsAgree(a: bv32, b: bv32)
    ensures a & KnownTypes == b & KnownTypes
        <==> && (a & TypePerformance != 0 <==> b & TypePerformance != 0)
             && (a & TypeValidation != 0 <==> b & TypeValidation != 0)
             && (a & TypeGeneral != 0 <==> b & TypeGeneral != 0)
  {
  }

  /** The label is exactly "[]" when none of the three known flags is set. */
  lemma TypeLabelEmptyIff(types: bv32)
    ensures TypeLabel(types) == "[]" <==> types & KnownTypes == 0
  {
    KnownFlagsAgree(types, 0);
    PerformanceListed(types);
    ValidationListed(types);
    GeneralListed(types);
    if types & KnownTypes == 0 {
      assert AppendedFlags(types) == "";
    }
  }

  /** Two flag words receive the same label exactly when they agree on the three known flags. */
  lemma TypeLabelDeterminesKnownFlags(a: bv32, b: bv32)
    ensures TypeLabel(a) == TypeLabel(b) <==> a & KnownTypes == b & KnownTypes
  {
    KnownFlagsAgree(a, b);
    if TypeLabel(a) == TypeLabel(b) {
      PerformanceListed(a);
      PerformanceListed(b);
      ValidationListed(a);
      ValidationListed(b);
      GeneralListed(a);
      GeneralListed(b);
    }
  }

  /** Index of the first space in `s`, or `|s|` when there is none. */
  function SpaceIndex(s: string): (r: nat)
    ensures r <= |s|
    ensures r < |s| ==> s[r] == ' '
    ensures forall k :: 0 <= k < r ==> s[k] != ' '
  {
    if s == [] then 0
    else if s[0] == ' ' then 0
    else 1 + SpaceIndex(s[1..])
  }

  /** The three fields of a "[LAYER]" log line. */
  datatype LayerFields = LayerFields(severity: string, types: string, message: string)

  /** Splits a log line into the prefix, the two space-free labels and the message, which may hold spaces. */
  function ParseLayerLine(line: string): Option<LayerFields>
  {
    if |line| < |LayerPrefix| || line[..|LayerPrefix|] != LayerPrefix then None
    else
      var rest := line[|LayerPrefix|..];
      var i := SpaceIndex(rest);
      if i == |rest| then None
      else
        var tail := rest[i + 1..];
        var j := SpaceIndex(tail);
        if j == |tail| then None
        else Some(LayerFields(rest[..i], tail[..j], tail[j + 1..]))
  }

  /** The line the callback hands to the logger. */
  function LayerLine(severity: int32, types: bv32, message: string): string
  {
    LayerPrefix + SeverityLabel(severity) + " " + TypeLabel(types) + " " + message
  }

  lemma SeverityLabelHasNoSpace(severity: int32)
    ensures ' ' !in SeverityLabel(severity)
  {
  }

  lemma TypeLabelHasNoSpace(types: bv32)
    ensures ' ' !in TypeLabel(types)
  {
    TypeLabelChars(types, ' ');
    assert ' ' !in "PERFORMANCE," && ' ' !in "VALIDATION," && ' ' !in "GENERAL,";
  }

  lemma SpaceIndexAfterWord(a: string, b: string)
    requires ' ' !in a
    ensures SpaceIndex(a + " " + b) == |a|
  {
    var s := a + " " + b;
    assert s[|a|] == ' ';
    forall k | 0 <= k < |a| ensures s[k] != ' ' {
      assert s[k] == a[k];
    }
  }

  /** A "[LAYER]" line built from two space-free labels splits back into the labels and the message. */
  lemma ParseJoinedFields(severity: string, types: string, message: string)
    requires ' ' !in severity && ' ' !in types
    ensures ParseLayerLine(LayerPrefix + severity + " " + types + " " + message)
         == Some(LayerFields(severity, types, message))
  {
    var line := LayerPrefix + severity + " " + types + " " + message;
    var tail := types + " " + message;
    var rest := severity + " " + tail;
    assert line[..|LayerPrefix|] == LayerPrefix;
    assert line[|LayerPrefix|..] == rest;
    SpaceIndexAfterWord(severity, tail);
    assert rest[..|severity|] == severity;
    assert rest[|severity| + 1..] == tail;
    SpaceIndexAfterWord(types, message);
    assert tail[..|types|] == types;
    assert tail[|types| + 1..] == message;
  }

  /** The logged line parses back into the severity label, the type label and the untouched message. */
  lemma LayerLineRoundTrip(severity: int32, types: bv32, message: string)
    ensures ParseLayerLine(LayerLine(severity, types, message))
         == Some(LayerFields(SeverityLabel(severity), TypeLabel(types), message))
  {
    SeverityLabelHasNoSpace(severity);
    TypeLabelHasNoSpace(types);
    ParseJoinedFields(SeverityLabel(severity), TypeLabel(types), message);
  }

  /** What one invocation of the callback produces: the line it logs and the VkBool32 it returns. */
  datatype CallbackResult = CallbackResult(logged: string, returned: bv32)

  /**
   * The debug-messenger callback. It logs one "[LAYER]" line whose fields are
   * the severity label, the type label and the message, and returns VK_FALSE.
   */
  function DebugCallback(severity: int32, types: bv32, message: string): (r: CallbackResult)
    ensures r.returned == VkFalse
    ensures ParseLayerLine(r.logged) == Some(LayerFields(SeverityLabel(severity), TypeLabel(types), message))
  {
    LayerLineRoundTrip(severity, types, message);
    CallbackResult(LayerLine(severity, types, message), VkFalse)
  }
}
