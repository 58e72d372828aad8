/**
 * scripts/cmake_options.py: the CMake options the build passes to the bundled libraries,
 * and the command-line string it prints for them.
 */
module CmakeOptions {
  /** `OPTIONS`, in the dictionary's insertion order. */
  const Options: seq<(string, string)> := [
    ("SPIRV_CROSS_ENABLE_TESTS", "OFF"),
    ("SPIRV_CROSS_CLI", "OFF"),
    ("SPIRV_CROSS_ENABLE_C_API", "OFF"),
    ("SPIRV_CROSS_ENABLE_HLSL", "OFF"),
    ("SPIRV_CROSS_ENABLE_MSL", "OFF"),
    ("SPIRV_CROSS_ENABLE_CPP", "OFF"),
    ("SHADERC_SKIP_TESTS", "ON"),
    ("SHADERC_SKIP_INSTALL", "ON"),
    ("SHADERC_SKIP_EXAMPLES", "ON"),
    ("SHADERC_SKIP_COPYRIGHT_CHECK", "ON"),
    ("SHADERC_ENABLE_SHARED_CRT", "ON"),
    ("SKIP_SPIRV_TOOLS_INSTALL", "ON"),
    ("SPIRV_SKIP_EXECUTABLES", "ON"),
    ("SPIRV_SKIP_TESTS", "ON"),
    ("GLFW_BUILD_EXAMPLES", "OFF"),
    ("GLFW_BUILD_TESTS", "OFF"),
    ("GLFW_BUILD_DOCS", "OFF"),
    ("GLFW_INSTALL", "OFF"),
    ("ENABLE_CTEST", "OFF"),
    ("ASSIMP_NO_EXPORT", "ON"),
    ("BUILD_SHARED_LIBS", "OFF"),
    ("ASSIMP_BUILD_ASSIMP_TOOLS", "OFF"),
    ("ASSIMP_BUILD_TESTS", "OFF"),
    ("ASSIMP_INSTALL", "OFF"),
    ("ASSIMP_INJECT_DEBUG_POSTFIX", "OFF"),
    ("ASSIMP_BUILD_ALL_IMPORTERS_BY_DEFAULT", "OFF"),
    ("ASSIMP_BUILD_GLTF_IMPORTER", "ON"),
    ("KTX_FEATURE_TOOLS", "OFF"),
    ("KTX_FEATURE_STATIC_LIBRARY", "ON"),
    ("KTX_FEATURE_TESTS", "OFF")
  ]

  const Prefix: string := "-Wno-dev"

  /** One option's token: " -D{name}={value}". */
  function Token(option: (string, string)): (token: string)
    ensures |token| == 4 + |option.0| + |option.1|
    ensures token[..3] == " -D"
  {
    " -D" + option.0 + "=" + option.1
  }

  /** The tokens of the options, in order. */
  function Tokens(options: seq<(string, string)>): (s: string)
  {
    if options == [] then "" else Tokens(options[..|options| - 1]) + Token(options[|options| - 1])
  }

  /** The printed string: the prefix, then one token per option. */
  function OptionString(options: seq<(string, string)>): (s: string)
    ensures |s| >= |Prefix| && s[..|Prefix|] == Prefix
  {
    Prefix + Tokens(options)
  }

  /** `main`, without the printing: the loop that builds the option string over `OPTIONS`. */
  method Render() returns (optionString: string)
    ensures optionString == OptionString(Options)
  {
    optionString := RenderOptions(Options);
  }

  /** The loop of `main` over any option list. */
  method RenderOptions(options: seq<(string, string)>) returns (optionString: string)
    ensures optionString == OptionString(options)
  {
    optionString := Prefix;
    for i := 0 to |options|
      invariant optionString == Prefix + Tokens(options[..i])
    {
      assert options[..i + 1][..i] == options[..i];
      optionString := optionString + " -D" + options[i].0 + "=" + options[i].1;
    }
    assert options[..|options|] == options;
  }

  /** How often `c` occurs in `s`. */
  function Count(s: string, c: char): (n: nat)
    ensures n <= |s|
  {
    if s == [] then 0 else Count(s[..|s| - 1], c) + (if s[|s| - 1] == c then 1 else 0)
  }

  lemma {:induction false} CountAppend(a: string, b: string, c: char)
    ensures Count(a + b, c) == Count(a, c) + Count(b, c)
    decreases |b|
  {
    if b == [] {
      assert a + b == a;
    } else {
      var init := b[..|b| - 1];
      CountAppend(a, init, c);
      assert (a + b)[..|a + b| - 1] == a + init;
    }
  }

  /** Nothing in the text is a space. */
  predicate NoSpaces(s: string)
  {
    ' ' !in s
  }

  lemma {:induction false} CountNone(s: string)
    requires NoSpaces(s)
    ensures Count(s, ' ') == 0
  {
    if s != [] {
      CountNone(s[..|s| - 1]);
    }
  }

  /** When no name or value holds a space, each option adds exactly one space: one token per option. */
  lemma {:induction false} OneSpacePerOption(options: seq<(string, string)>)
    requires forall i :: 0 <= i < |options| ==> NoSpaces(options[i].0) && NoSpaces(options[i].1)
    ensures Count(Tokens(options), ' ') == |options|
  {
    if options != [] {
      var init := options[..|options| - 1];
      var last := options[|options| - 1];
      OneSpacePerOption(init);
      CountAppend(Tokens(init), Token(last), ' ');
      assert Token(last) == [' '] + ("-D" + last.0 + "=" + last.1);
      CountAppend([' '], "-D" + last.0 + "=" + last.1, ' ');
      CountAppend("-D" + last.0 + "=", last.1, ' ');
      CountAppend("-D" + last.0, "=", ' ');
      CountAppend("-D", last.0, ' ');
      CountNone(last.0);
      CountNone(last.1);
      assert Count([' '], ' ') == 1 by { assert [' '][..0] == []; }
      assert Count("-D", ' ') == 0 by { CountNone("-D"); }
      assert Count("=", ' ') == 0 by { CountNone("="); }
    }
  }

  /** The option names hold no spaces (checked ten at a time). */
  lemma NamesWithoutSpacesA()
    ensures forall i :: 0 <= i < 10 ==> NoSpaces(Options[i].0)
  {
  }

  lemma NamesWithoutSpacesB()
    ensures forall i :: 10 <= i < 20 ==> NoSpaces(Options[i].0)
  {
  }

  lemma NamesWithoutSpacesC()
    ensures forall i :: 20 <= i < 30 ==> NoSpaces(Options[i].0)
  {
  }

  /** Every value is "ON" or "OFF". */
  lemma ValuesOnOff()
    ensures |Options| == 30
    ensures forall i :: 0 <= i < |Options| ==> Options[i].1 in {"ON", "OFF"}
  {
  }

  /** There are thirty options, so the printed string carries thirty tokens. */
  lemma TokenCount()
    ensures Count(OptionString(Options), ' ') == 30
  {
    ValuesOnOff();
    NamesWithoutSpacesA();
    NamesWithoutSpacesB();
    NamesWithoutSpacesC();
    forall i | 0 <= i < |Options|
      ensures NoSpaces(Options[i].0) && NoSpaces(Options[i].1)
    {
      assert Options[i].1 in {"ON", "OFF"};
    }
    OneSpacePerOption(Options);
    CountAppend(Prefix, Tokens(Options), ' ');
    CountNone(Prefix);
  }

  /** No option is listed twice, so the list is the dictionary, key by key. */
  lemma OptionNamesDistinctA()
    ensures forall i, j :: 0 <= i < j < 15 ==> Options[i].0 != Options[j].0
  {
  }

  lemma OptionNamesDistinctB()
    ensures forall i, j :: 0 <= i < 15 <= j < 30 ==> Options[i].0 != Options[j].0
  {
  }

  lemma OptionNamesDistinctC()
    ensures forall i, j :: 15 <= i < j < 30 ==> Options[i].0 != Options[j].0
  {
  }
}
