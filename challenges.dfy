/**
 * The challenge catalogue of the JavaScript mini-game (lib/challenges.js): fifteen
 * fill-in-the-blank code snippets, each with the slots its blanks stand for and the
 * draggable elements offered as answers.
 */
module Challenges {
  import opened JsStrings

  /** The `type` tag of an element. */
  datatype ElementKind = Operator | Method | Keyword | Property | Expression

  /** A blank in the code and the value that solves it. */
  datatype Slot = Slot(id: string, correct: string)

  /** A draggable answer. */
  datatype Element = Element(id: string, kind: ElementKind, value: string)

  /**
   * A challenge; its `code` is held as the text between its `___` markers (`template`),
   * each piece written as a list of short fragments, and is rebuilt by `Code`.
   */
  datatype Challenge = Challenge(
    id: int,
    title: string,
    template: seq<seq<string>>,
    slots: seq<Slot>,
    elements: seq<Element>,
    hint: string)

  /** The blank marker written in the code of every challenge. */
  const Blank := "___"

  /**
   * The number of non-overlapping `___` markers, scanning left to right
   * (`(s.match(/___/g) || []).length`).
   */
  function CountBlanks(s: string): nat
  {
    if |s| < 3 then 0
    else if StartsWithBlank(s) then 1 + CountBlanks(s[3..])
    else CountBlanks(s[1..])
  }

  /** `s` starts with the marker `___`. */
  predicate StartsWithBlank(s: string) {
    |s| >= 3 && s[0] == '_' && s[1] == '_' && s[2] == '_'
  }

  lemma StartsWithBlankIff(s: string)
    ensures StartsWithBlank(s) <==> |s| >= 3 && s[..3] == Blank
  {
    if |s| >= 3 && s[..3] == Blank {
      assert s[0] == s[..3][0] && s[1] == s[..3][1] && s[2] == s[..3][2];
    }
  }

  /** The text of a piece written as a list of fragments. */
  function Concat(fragments: seq<string>): string
  {
    if fragments == [] then "" else fragments[0] + Concat(fragments[1..])
  }

  /** The pieces of a template, each the text of its fragments. */
  function Pieces(parts: seq<seq<string>>): (pieces: seq<string>)
    ensures |pieces| == |parts|
    ensures forall i :: 0 <= i < |parts| ==> pieces[i] == Concat(parts[i])
  {
    if parts == [] then [] else [Concat(parts[0])] + Pieces(parts[1..])
  }

  /** A code template: its pieces joined by the blank marker. */
  function Template(parts: seq<seq<string>>): string
  {
    JoinWith(Pieces(parts), Blank)
  }

  /** `code`: the template's pieces joined by the blank marker. */
  function Code(c: Challenge): string
  {
    Template(c.template)
  }

  /** A first character other than `_` never starts a marker. */
  lemma CountBlanksSkip(x: char, t: string)
    requires x != '_'
    ensures CountBlanks([x] + t) == CountBlanks(t)
  {
    var s := [x] + t;
    assert s[1..] == t;
    if |s| >= 3 {
      assert !StartsWithBlank(s);
    }
  }

  /** A prefix without `_` adds no marker. */
  lemma {:induction false} CountBlanksFreePrefix(p: string, t: string)
    requires '_' !in p
    ensures CountBlanks(p + t) == CountBlanks(t)
  {
    if p == [] {
      assert p + t == t;
    } else {
      assert p[0] in p;
      var rest := p[1..] + t;
      CountBlanksFreePrefix(p[1..], t);
      CountBlanksSkip(p[0], rest);
      assert p + t == [p[0]] + rest;
      assert CountBlanks(p + t) == CountBlanks([p[0]] + rest);
    }
  }

  /** A string starting with the marker has one more marker than the rest. */
  lemma CountBlanksMarker(r: string)
    ensures CountBlanks(Blank + r) == 1 + CountBlanks(r)
  {
    assert StartsWithBlank(Blank + r) && (Blank + r)[3..] == r;
  }

  /** Pieces without `_` joined by the marker hold exactly one blank fewer than pieces. */
  lemma {:induction false} JoinBlanks(pieces: seq<string>)
    requires |pieces| >= 1
    requires forall i :: 0 <= i < |pieces| ==> '_' !in pieces[i]
    ensures CountBlanks(JoinWith(pieces, Blank)) == |pieces| - 1
  {
    if |pieces| == 1 {
      CountBlanksFreePrefix(pieces[0], "");
      assert pieces[0] + "" == pieces[0];
    } else {
      var rest := JoinWith(pieces[1..], Blank);
      JoinBlanks(pieces[1..]);
      assert JoinWith(pieces, Blank) == pieces[0] + (Blank + rest);
      CountBlanksFreePrefix(pieces[0], Blank + rest);
      CountBlanksMarker(rest);
    }
  }

  /** Fragments without `_` make a piece without `_`. */
  lemma {:induction false} ConcatFree(fragments: seq<string>)
    requires forall j :: 0 <= j < |fragments| ==> '_' !in fragments[j]
    ensures '_' !in Concat(fragments)
  {
    if fragments != [] {
      ConcatFree(fragments[1..]);
    }
  }

  /** A template whose fragments hold no `_` has exactly one blank fewer than pieces. */
  lemma TemplateBlanks(parts: seq<seq<string>>)
    requires |parts| >= 1
    requires forall i, j :: 0 <= i < |parts| && 0 <= j < |parts[i]| ==> '_' !in parts[i][j]
    ensures CountBlanks(Template(parts)) == |parts| - 1
  {
    var pieces := Pieces(parts);
    forall i | 0 <= i < |pieces| ensures '_' !in pieces[i] {
      ConcatFree(parts[i]);
    }
    JoinBlanks(pieces);
  }

  /** A character other than `_` separates the markers on either side of it. */
  lemma {:induction false} CountBlanksSplit(a: string, c: char, b: string)
    requires c != '_'
    ensures CountBlanks(a + [c] + b) == CountBlanks(a) + CountBlanks(b)
  {
    var s := a + [c] + b;
    if StartsWithBlank(a) {
      assert StartsWithBlank(s) && s[3..] == a[3..] + [c] + b;
      CountBlanksSplit(a[3..], c, b);
    } else if |a| >= 3 {
      assert !StartsWithBlank(s) && s[1..] == a[1..] + [c] + b;
      CountBlanksSplit(a[1..], c, b);
    } else if a == [] {
      assert s == [c] + b;
      CountBlanksSkip(c, b);
    } else {
      // a short prefix holds no marker, and no marker can start inside it and reach `c`
      assert s[1..] == a[1..] + [c] + b;
      if |s| >= 3 {
        assert !StartsWithBlank(s) by {
          if |a| == 1 { assert s[1] == c; } else { assert s[2] == c; }
        }
      }
      CountBlanksSplit(a[1..], c, b);
    }
  }

  /** The per-line marker counts add up to the count of a joined text. */
  function SumBlanks(lines: seq<string>): nat
  {
    if lines == [] then 0 else CountBlanks(lines[0]) + SumBlanks(lines[1..])
  }

  /** Splitting code into lines neither creates nor loses a blank. */
  lemma {:induction false} LinesBlanks(lines: seq<string>)
    ensures CountBlanks(Join(lines, '\n')) == SumBlanks(lines)
  {
    if |lines| == 1 {
      assert SumBlanks(lines[1..]) == 0;
    } else if |lines| > 1 {
      LinesBlanks(lines[1..]);
      CountBlanksSplit(lines[0], '\n', Join(lines[1..], '\n'));
    }
  }

  /** The blanks of a text are the blanks of its lines (`code.split("\n")`). */
  lemma CodeLinesBlanks(code: string)
    ensures SumBlanks(Split(code, '\n')) == CountBlanks(code)
  {
    JoinSplit(code, '\n');
    LinesBlanks(Split(code, '\n'));
  }

  /** Some element offers the value `v`. */
  predicate Offers(elements: seq<Element>, v: string) {
    elements != [] && (elements[0].value == v || Offers(elements[1..], v))
  }

  /** `Offers` holds exactly when some element has the value. */
  lemma {:induction false} OffersIff(elements: seq<Element>, v: string)
    ensures Offers(elements, v) <==> exists j :: 0 <= j < |elements| && elements[j].value == v
  {
    if elements != [] {
      OffersIff(elements[1..], v);
      if exists j :: 0 <= j < |elements| && elements[j].value == v {
        var j :| 0 <= j < |elements| && elements[j].value == v;
        if j > 0 {
          assert elements[1..][j - 1].value == v;
        }
      }
      if exists j :: 0 <= j < |elements[1..]| && elements[1..][j].value == v {
        var j :| 0 <= j < |elements[1..]| && elements[1..][j].value == v;
        assert elements[j + 1].value == v;
      }
    }
  }

  /** Slot ids are non-empty strings, so a drop on any slot is accepted. */
  predicate NonEmptySlotIds(slots: seq<Slot>) {
    forall i :: 0 <= i < |slots| ==> slots[i].id != ""
  }

  predicate DistinctSlotIds(slots: seq<Slot>) {
    forall i, j :: 0 <= i < j < |slots| ==> slots[i].id != slots[j].id
  }

  predicate DistinctElementIds(elements: seq<Element>) {
    forall i, j :: 0 <= i < j < |elements| ==> elements[i].id != elements[j].id
  }

  predicate DistinctElementValues(elements: seq<Element>) {
    forall i, j :: 0 <= i < j < |elements| ==> elements[i].value != elements[j].value
  }

  /** No fragment of the template holds `_`: its only underscores are the markers between pieces. */
  predicate MarkerFree(parts: seq<seq<string>>) {
    forall i, j :: 0 <= i < |parts| && 0 <= j < |parts[i]| ==> '_' !in parts[i][j]
  }

  /**
   * A playable challenge: one slot per gap between the template's pieces and no other
   * underscore (so one slot per blank of the code, `WellFormedBlanks`), distinct non-empty slot ids,
   * distinct element ids and values, and every slot solvable by an offered element.
   */
  predicate WellFormed(c: Challenge) {
    && |c.slots| >= 1
    && |c.template| == |c.slots| + 1
    && MarkerFree(c.template)
    && NonEmptySlotIds(c.slots)
    && DistinctSlotIds(c.slots)
    && DistinctElementIds(c.elements)
    && DistinctElementValues(c.elements)
    && (forall i :: 0 <= i < |c.slots| ==> Offers(c.elements, c.slots[i].correct))
  }

  /** Challenge 1, lib/challenges.js:2-17. */
  const Code1: seq<seq<string>> := [
      ["function ",
       "calculateSum",
       "(a,",
       " b) {\n",
       "    // ",
       "Вставьте",
       " правильный ",
       "оператор\n",
       "    return ",
       "a "],
      [" b;\n",
       "}"]
  ]

  const Challenge1 := Challenge(
    1, "Сумма чисел", Code1,
    [Slot("s1", "+")],
    [Element("e1", Operator, "+"), Element("e2", Operator, "-"), Element("e3", Operator, "*"), Element("e4", Operator, "/")],
    "Для сложения двух чисел используйте оператор плюс")

  /** Challenge 2, lib/challenges.js:18-33. */
  const Code2: seq<seq<string>> := [
      ["function ",
       "isEven(num) ",
       "{\n",
       "    // ",
       "Проверьте, ",
       "четное",
       " ли число\n",
       "    return ",
       "num % 2 "],
      [" 0;\n",
       "}"]
  ]

  const Challenge2 := Challenge(
    2, "Проверка четности", Code2,
    [Slot("s1", "===")],
    [Element("e1", Operator, "==="), Element("e2", Operator, "!=="), Element("e3", Operator, ">"), Element("e4", Operator, "<")],
    "Для проверки равенства используйте оператор строгого равенства")

  /** Challenge 3, lib/challenges.js:34-52. */
  const Code3: seq<seq<string>> := [
      ["function ",
       "countToFive(",
       ") {\n",
       "    let ",
       "result = ",
       "[];\n",
       "    for ",
       "(let i = 1; ",
       "i "],
      [" 5; i++) {\n",
       "        ",
       "result.push(",
       "i);\n",
       "    }\n",
       "    return ",
       "result;\n",
       "}"]
  ]

  const Challenge3 := Challenge(
    3, "Цикл for", Code3,
    [Slot("s1", "<=")],
    [Element("e1", Operator, "<="), Element("e2", Operator, ">="), Element("e3", Operator, "=="), Element("e4", Operator, "!=")],
    "Цикл должен продолжаться пока i меньше или равно 5")

  /** Challenge 4, lib/challenges.js:53-68. */
  const Code4: seq<seq<string>> := [
      ["function",
       " doubleNumbe",
       "rs(arr) {\n",
       "    // ",
       "Удвойте все",
       " элементы ",
       "массива\n",
       "    return ",
       "arr."],
      ["(num => num ",
       "* 2);\n",
       "}"]
  ]

  const Challenge4 := Challenge(
    4, "Метод массива", Code4,
    [Slot("s1", "map")],
    [Element("e1", Method, "map"), Element("e2", Method, "filter"), Element("e3", Method, "reduce"), Element("e4", Method, "forEach")],
    "map создает новый массив с результатами вызова функции для каждого элемента")

  /** Challenge 5, lib/challenges.js:69-87. */
  const Code5: seq<seq<string>> := [
      ["function ",
       "checkAge(age",
       ") {\n",
       "    // ",
       "Используйте",
       " тернарный ",
       "оператор\n",
       "    return ",
       "age >= 18 "],
      [" \"Взрослый\" "],
      [" \"Ребенок\";\n",
       "}"]
  ]

  const Challenge5 := Challenge(
    5, "Тернарный оператор", Code5,
    [Slot("s1", "?"), Slot("s2", ":")],
    [Element("e1", Operator, "?"), Element("e2", Operator, ":"), Element("e3", Operator, "&&"), Element("e4", Operator, "||")],
    "Тернарный оператор имеет формат: условие ? значение1 : значение2")

  /** Challenge 6, lib/challenges.js:88-101. */
  const Code6: seq<seq<string>> := [
      ["// Объявите ",
       "переменную",
       " для хранени",
       "я имени",
       " пользовател",
       "я\n"],
      [" userName = ",
       "\"Алексей\";"]
  ]

  const Challenge6 := Challenge(
    6, "Объявление переменной", Code6,
    [Slot("s1", "const")],
    [Element("e1", Keyword, "const"), Element("e2", Keyword, "let"), Element("e3", Keyword, "var"), Element("e4", Keyword, "function")],
    "Для объявления константной переменной используйте const")

  /** Challenge 7, lib/challenges.js:102-122. */
  const Code7: seq<seq<string>> := [
      ["function",
       " checkTemper",
       "ature(temp) ",
       "{\n",
       "    if ",
       "(temp > 25) ",
       "{\n",
       "        ",
       "return ",
       "\"Жарко\";\n",
       "    } "],
      [" (temp > ",
       "15) {\n",
       "        ",
       "return ",
       "\"Тепло\";\n",
       "    } else ",
       "{\n",
       "        ",
       "return",
       " \"Прохладно\"",
       ";\n",
       "    }\n",
       "}"]
  ]

  const Challenge7 := Challenge(
    7, "Условие if-else", Code7,
    [Slot("s1", "else if")],
    [Element("e1", Keyword, "else if"), Element("e2", Keyword, "if else"), Element("e3", Keyword, "elseif"), Element("e4", Keyword, "case")],
    "Для дополнительного условия используйте else if")

  /** Challenge 8, lib/challenges.js:123-141. */
  const Code8: seq<seq<string>> := [
      ["const user ",
       "= {\n",
       "    name: ",
       "\"Мария\",\n",
       "    age: 25\n",
       "};\n",
       "\n",
       "// Получите ",
       "имя",
       " пользовател",
       "я\n",
       "const userNa",
       "me = user."],
      [";"]
  ]

  const Challenge8 := Challenge(
    8, "Доступ к свойству объекта", Code8,
    [Slot("s1", "name")],
    [Element("e1", Property, "name"), Element("e2", Property, "age"), Element("e3", Property, "user"), Element("e4", Property, "getName")],
    "Для доступа к свойству объекта используйте точечную нотацию")

  /** Challenge 9, lib/challenges.js:142-159. */
  const Code9: seq<seq<string>> := [
      ["// Преобразу",
       "йте в",
       " стрелочную ",
       "функцию\n",
       "const multip",
       "ly =",
       " function(a,",
       " b) {\n",
       "    return ",
       "a * b;\n",
       "};\n",
       "\n",
       "const multip",
       "ly = (a, b) "],
      [" a * b;"]
  ]

  const Challenge9 := Challenge(
    9, "Функция стрелка", Code9,
    [Slot("s1", "=>")],
    [Element("e1", Operator, "=>"), Element("e2", Operator, "->"), Element("e3", Operator, ">>"), Element("e4", Operator, "==")],
    "Стрелочная функция использует оператор =>")

  /** Challenge 10, lib/challenges.js:160-183. */
  const Code10: seq<seq<string>> := [
      ["function ",
       "countDown(n)",
       " {\n",
       "    let ",
       "result = ",
       "[];\n",
       "    let i = ",
       "n;\n",
       "    \n",
       "    // ",
       "Заполните ",
       "условие",
       " цикла\n",
       "    while ",
       "(i "],
      [") {\n",
       "        ",
       "result.push(",
       "i);\n",
       "        ",
       "i--;\n",
       "    }\n",
       "    \n",
       "    return ",
       "result;\n",
       "}"]
  ]

  const Challenge10 := Challenge(
    10, "Цикл while", Code10,
    [Slot("s1", "> 0")],
    [Element("e1", Expression, "> 0"), Element("e2", Expression, "< 0"), Element("e3", Expression, ">= n"), Element("e4", Expression, "=== n")],
    "Цикл должен выполняться пока i больше 0")

  /** Challenge 11, lib/challenges.js:184-205. */
  const Code11: seq<seq<string>> := [
      ["function ",
       "getDayName(d",
       "ay)",
       " {\n",
       "    switch(d",
       "ay) {\n",
       "        "],
      [" 1:\n",
       "            ",
       "return",
       " \"Понедельни",
       "к\";\n",
       "        ",
       "case 2:\n",
       "            ",
       "return",
       " \"Вторник\";\n",
       "        ",
       "default:\n",
       "            ",
       "return",
       " \"Неизвестны",
       "й день\";\n",
       "    }\n",
       "}"]
  ]

  const Challenge11 := Challenge(
    11, "Оператор switch", Code11,
    [Slot("s1", "case")],
    [Element("e1", Keyword, "case"), Element("e2", Keyword, "if"), Element("e3", Keyword, "when"), Element("e4", Keyword, "check")],
    "В операторе switch для каждого варианта используйте case")

  /** Challenge 12, lib/challenges.js:206-221. */
  const Code12: seq<seq<string>> := [
      ["const fruits",
       " = [\"яблоко\"",
       ",",
       " \"банан\", ",
       "\"апельсин\"];",
       "\n",
       "\n",
       "// Добавьте ",
       "элемент в",
       " конец ",
       "массива\n",
       "fruits."],
      ["(\"виноград\")",
       ";"]
  ]

  const Challenge12 := Challenge(
    12, "Работа с массивом", Code12,
    [Slot("s1", "push")],
    [Element("e1", Method, "push"), Element("e2", Method, "pop"), Element("e3", Method, "shift"), Element("e4", Method, "unshift")],
    "Метод push добавляет элемент в конец массива")

  /** Challenge 13, lib/challenges.js:222-237. */
  const Code13: seq<seq<string>> := [
      ["function ",
       "canDrive(age",
       ",",
       " hasLicense)",
       " {\n",
       "    // ",
       "Проверьте ",
       "два",
       " условия\n",
       "    return ",
       "age >= 18 "],
      [" hasLicense;",
       "\n",
       "}"]
  ]

  const Challenge13 := Challenge(
    13, "Логическое И", Code13,
    [Slot("s1", "&&")],
    [Element("e1", Operator, "&&"), Element("e2", Operator, "||"), Element("e3", Operator, "??"), Element("e4", Operator, "!")],
    "Для проверки двух условий одновременно используйте оператор И (&&)")

  /** Challenge 14, lib/challenges.js:238-256. */
  const Code14: seq<seq<string>> := [
      ["function ",
       "greet(name) ",
       "{\n",
       "    // ",
       "Объедините ",
       "строки\n",
       "    return ",
       "\"Привет, \" "],
      [" name "],
      [" \"!\";\n",
       "}"]
  ]

  const Challenge14 := Challenge(
    14, "Конкатенация строк", Code14,
    [Slot("s1", "+"), Slot("s2", "+")],
    [Element("e1", Operator, "+"), Element("e2", Operator, "&"), Element("e3", Operator, "concat"), Element("e4", Operator, "join")],
    "Для объединения строк используйте оператор +")

  /** Challenge 15, lib/challenges.js:257-272. */
  const Code15: seq<seq<string>> := [
      ["function ",
       "isNotZero(nu",
       "m) {\n",
       "    // ",
       "Проверьте, ",
       "что",
       " число НЕ ",
       "равно нулю\n",
       "    return ",
       "num "],
      [" 0;\n",
       "}"]
  ]

  const Challenge15 := Challenge(
    15, "Оператор отрицания", Code15,
    [Slot("s1", "!==")],
    [Element("e1", Operator, "!=="), Element("e2", Operator, "==="), Element("e3", Operator, ">"), Element("e4", Operator, "<")],
    "Для проверки неравенства используйте оператор строгого неравенства")

  /** `challenges`, in level order. */
  const Catalogue: seq<Challenge> := [
    Challenge1, Challenge2, Challenge3, Challenge4, Challenge5,
    Challenge6, Challenge7, Challenge8, Challenge9, Challenge10,
    Challenge11, Challenge12, Challenge13, Challenge14, Challenge15
  ]

  /** The number of challenges. */
  const ChallengeCount := 15

  lemma CatalogueSize()
    ensures |Catalogue| == ChallengeCount
  {
  }

  /** The game opens on challenge 1. */
  lemma FirstOfCatalogue()
    ensures Catalogue[0] == Challenge1
  {
  }

  /** Fifteen challenges, the one at index i having id i + 1 (the game reads `challenges[level - 1]`). */
  lemma CatalogueIds()
    ensures |Catalogue| == 15
    ensures forall i :: 0 <= i < |Catalogue| ==> Catalogue[i].id == i + 1
  {
  }

  lemma Code1Free()
    ensures forall i, j :: 0 <= i < |Code1| && 0 <= j < |Code1[i]| ==> '_' !in Code1[i][j]
  {
  }

  lemma Challenge1WellFormed()
    ensures WellFormed(Challenge1)
  {
    Code1Free();
  }

  lemma Code2Free()
    ensures forall i, j :: 0 <= i < |Code2| && 0 <= j < |Code2[i]| ==> '_' !in Code2[i][j]
  {
  }

  lemma Challenge2WellFormed()
    ensures WellFormed(Challenge2)
  {
    Code2Free();
  }

  lemma Code3Free()
    ensures forall i, j :: 0 <= i < |Code3| && 0 <= j < |Code3[i]| ==> '_' !in Code3[i][j]
  {
  }

  lemma Challenge3WellFormed()
    ensures WellFormed(Challenge3)
  {
    Code3Free();
  }

  lemma Code4Free()
    ensures forall i, j :: 0 <= i < |Code4| && 0 <= j < |Code4[i]| ==> '_' !in Code4[i][j]
  {
  }

  lemma Challenge4WellFormed()
    ensures WellFormed(Challenge4)
  {
    Code4Free();
  }

  lemma Code5Free()
    ensures forall i, j :: 0 <= i < |Code5| && 0 <= j < |Code5[i]| ==> '_' !in Code5[i][j]
  {
  }

  lemma Challenge5WellFormed()
    ensures WellFormed(Challenge5)
  {
    Code5Free();
  }

  lemma Code6Free()
    ensures forall i, j :: 0 <= i < |Code6| && 0 <= j < |Code6[i]| ==> '_' !in Code6[i][j]
  {
  }

  lemma Challenge6WellFormed()
    ensures WellFormed(Challenge6)
  {
    Code6Free();
  }

  lemma Code7Free()
    ensures forall i, j :: 0 <= i < |Code7| && 0 <= j < |Code7[i]| ==> '_' !in Code7[i][j]
  {
  }

  lemma Challenge7WellFormed()
    ensures WellFormed(Challenge7)
  {
    Code7Free();
  }

  lemma Code8Free()
    ensures forall i, j :: 0 <= i < |Code8| && 0 <= j < |Code8[i]| ==> '_' !in Code8[i][j]
  {
  }

  lemma Challenge8WellFormed()
    ensures WellFormed(Challenge8)
  {
    Code8Free();
  }

  lemma Code9Free()
    ensures forall i, j :: 0 <= i < |Code9| && 0 <= j < |Code9[i]| ==> '_' !in Code9[i][j]
  {
  }

  lemma Challenge9WellFormed()
    ensures WellFormed(Challenge9)
  {
    Code9Free();
  }

  lemma Code10Free()
    ensures forall i, j :: 0 <= i < |Code10| && 0 <= j < |Code10[i]| ==> '_' !in Code10[i][j]
  {
  }

  lemma Challenge10WellFormed()
    ensures WellFormed(Challenge10)
  {
    Code10Free();
  }

  lemma Code11Free()
    ensures forall i, j :: 0 <= i < |Code11| && 0 <= j < |Code11[i]| ==> '_' !in Code11[i][j]
  {
  }

  lemma Challenge11WellFormed()
    ensures WellFormed(Challenge11)
  {
    Code11Free();
  }

  lemma Code12Free()
    ensures forall i, j :: 0 <= i < |Code12| && 0 <= j < |Code12[i]| ==> '_' !in Code12[i][j]
  {
  }

  lemma Challenge12WellFormed()
    ensures WellFormed(Challenge12)
  {
    Code12Free();
  }

  lemma Code13Free()
    ensures forall i, j :: 0 <= i < |Code13| && 0 <= j < |Code13[i]| ==> '_' !in Code13[i][j]
  {
  }

  lemma Challenge13WellFormed()
    ensures WellFormed(Challenge13)
  {
    Code13Free();
  }

  lemma Code14Free()
    ensures forall i, j :: 0 <= i < |Code14| && 0 <= j < |Code14[i]| ==> '_' !in Code14[i][j]
  {
  }

  lemma Challenge14WellFormed()
    ensures WellFormed(Challenge14)
  {
    Code14Free();
  }

  lemma Code15Free()
    ensures forall i, j :: 0 <= i < |Code15| && 0 <= j < |Code15[i]| ==> '_' !in Code15[i][j]
  {
  }

  lemma Challenge15WellFormed()
    ensures WellFormed(Challenge15)
  {
    Code15Free();
  }

  /** Every challenge of the catalogue is well formed. */
  lemma CatalogueWellFormed()
    ensures forall i :: 0 <= i < |Catalogue| ==> WellFormed(Catalogue[i])
  {
    CatalogueSize();
    CatalogueWellFormedLow();
    CatalogueWellFormedMiddle();
    CatalogueWellFormedHigh();
  }

  /** Challenges 1 to 5. */
  lemma CatalogueWellFormedLow()
    ensures forall i :: 0 <= i < 5 ==> WellFormed(Catalogue[i])
  {
    Challenge1WellFormed();
    Challenge2WellFormed();
    Challenge3WellFormed();
    Challenge4WellFormed();
    Challenge5WellFormed();
  }

  /** Challenges 6 to 10. */
  lemma CatalogueWellFormedMiddle()
    ensures forall i :: 5 <= i < 10 ==> WellFormed(Catalogue[i])
  {
    Challenge6WellFormed();
    Challenge7WellFormed();
    Challenge8WellFormed();
    Challenge9WellFormed();
    Challenge10WellFormed();
  }

  /** Challenges 11 to 15. */
  lemma CatalogueWellFormedHigh()
    ensures forall i :: 10 <= i < 15 ==> WellFormed(Catalogue[i])
  {
    Challenge11WellFormed();
    Challenge12WellFormed();
    Challenge13WellFormed();
    Challenge14WellFormed();
    Challenge15WellFormed();
  }


  /** The code of a well-formed challenge holds exactly one `___` per slot. */
  lemma WellFormedBlanks(c: Challenge)
    requires WellFormed(c)
    ensures CountBlanks(Code(c)) == |c.slots|
  {
    TemplateBlanks(c.template);
  }

  /** The two-blank challenges: the ternary (5) and the concatenation (14). */
  lemma TwoBlankChallenges()
    ensures CountBlanks(Code(Challenge5)) == |Challenge5.slots| == 2
    ensures CountBlanks(Code(Challenge14)) == |Challenge14.slots| == 2
  {
    Challenge5WellFormed();
    WellFormedBlanks(Challenge5);
    Challenge14WellFormed();
    WellFormedBlanks(Challenge14);
  }

  /** The number of elements offering value `v`. */
  function OfferCount(elements: seq<Element>, v: string): nat
  {
    if elements == [] then 0
    else (if elements[0].value == v then 1 else 0) + OfferCount(elements[1..], v)
  }

  /**
   * Challenge 14 needs "+" in both of its slots while a single element offers "+":
   * it can be solved only because placing an element does not use it up.
   */
  lemma Challenge14NeedsReuse()
    ensures Challenge14.slots[0].correct == Challenge14.slots[1].correct == "+"
    ensures OfferCount(Challenge14.elements, "+") == 1
  {
  }
}
