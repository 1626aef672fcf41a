/** The static hint catalog, the filter applied to it, and the two small classifiers used when
    it is shown: `getTypeName` and `getHintIconClass`. */
module Catalog {
  import opened Text
  import opened Resolver

  /** `currentLanguage`: the dialect the editor is in. */
  datatype Dialect = JavaScript | TypeScript

  /** One catalog entry: the text inserted on commit and the description shown beside it. */
  datatype Hint = Hint(text: string, description: string)

  /** `getArrayMethods`. */
  const ArrayMethods: seq<Hint> := [
    Hint("push()", "добавить элемент в конец"),
    Hint("pop()", "удалить последний элемент"),
    Hint("shift()", "удалить первый элемент"),
    Hint("unshift()", "добавить элемент в начало"),
    Hint("slice()", "извлечь часть массива"),
    Hint("splice()", "изменить массив"),
    Hint("concat()", "объединить массивы"),
    Hint("join()", "объединить в строку"),
    Hint("reverse()", "перевернуть массив"),
    Hint("sort()", "отсортировать"),
    Hint("filter()", "отфильтровать элементы"),
    Hint("map()", "преобразовать элементы"),
    Hint("reduce()", "свернуть массив"),
    Hint("forEach()", "перебрать элементы"),
    Hint("find()", "найти первый элемент"),
    Hint("findIndex()", "найти индекс элемента"),
    Hint("includes()", "проверить наличие"),
    Hint("indexOf()", "найти индекс"),
    Hint("length", "длина массива")
  ]

  /** `getStringMethods`. */
  const StringMethods: seq<Hint> := [
    Hint("charAt()", "получить символ по индексу"),
    Hint("charCodeAt()", "получить код символа"),
    Hint("concat()", "объединить строки"),
    Hint("includes()", "проверить наличие"),
    Hint("indexOf()", "найти позицию"),
    Hint("lastIndexOf()", "найти последнюю позицию"),
    Hint("match()", "найти совпадения"),
    Hint("replace()", "заменить"),
    Hint("search()", "найти позицию"),
    Hint("slice()", "извлечь часть строки"),
    Hint("split()", "разделить на массив"),
    Hint("substring()", "извлечь подстроку"),
    Hint("toLowerCase()", "в нижний регистр"),
    Hint("toUpperCase()", "в верхний регистр"),
    Hint("trim()", "убрать пробелы"),
    Hint("trimStart()", "убрать пробелы в начале"),
    Hint("trimEnd()", "убрать пробелы в конце"),
    Hint("padStart()", "дополнить в начале"),
    Hint("padEnd()", "дополнить в конце"),
    Hint("startsWith()", "начинается с"),
    Hint("endsWith()", "заканчивается на"),
    Hint("length", "длина строки")
  ]

  /** `getObjectMethods`. */
  const ObjectMethods: seq<Hint> := [
    Hint("keys()", "Object.keys(obj) - получить ключи"),
    Hint("values()", "Object.values(obj) - получить значения"),
    Hint("entries()", "Object.entries(obj) - получить пары ключ-значение"),
    Hint("assign()", "Object.assign(target, sources) - копировать свойства"),
    Hint("create()", "Object.create(proto) - создать объект"),
    Hint("defineProperty()", "Object.defineProperty(obj, prop, descriptor)"),
    Hint("freeze()", "Object.freeze(obj) - заморозить объект"),
    Hint("seal()", "Object.seal(obj) - запечатать объект"),
    Hint("is()", "Object.is(value1, value2) - сравнить значения"),
    Hint("hasOwnProperty()", "hasOwnProperty(prop) - проверить собственное свойство"),
    Hint("toString()", "toString() - преобразовать в строку"),
    Hint("valueOf()", "valueOf() - получить примитивное значение")
  ]

  /** `getNumberMethods`. */
  const NumberMethods: seq<Hint> := [
    Hint("toFixed()", "toFixed(digits) - округлить до знаков"),
    Hint("toPrecision()", "toPrecision(precision) - округлить до точности"),
    Hint("toString()", "toString(radix) - преобразовать в строку"),
    Hint("valueOf()", "valueOf() - получить примитивное значение"),
    Hint("toExponential()", "toExponential(fractionDigits) - экспоненциальная запись"),
    Hint("parseInt()", "parseInt(string, radix) - парсить целое число"),
    Hint("parseFloat()", "parseFloat(string) - парсить число с плавающей точкой"),
    Hint("isNaN()", "isNaN(value) - проверить NaN"),
    Hint("isFinite()", "isFinite(value) - проверить конечность"),
    Hint("MAX_VALUE", "Number.MAX_VALUE - максимальное значение"),
    Hint("MIN_VALUE", "Number.MIN_VALUE - минимальное значение"),
    Hint("POSITIVE_INFINITY", "Number.POSITIVE_INFINITY - положительная бесконечность"),
    Hint("NEGATIVE_INFINITY", "Number.NEGATIVE_INFINITY - отрицательная бесконечность")
  ]

  /** `getFunctionMethods`. */
  const FunctionMethods: seq<Hint> := [
    Hint("call()", "вызвать с контекстом"),
    Hint("apply()", "вызвать с массивом аргументов"),
    Hint("bind()", "привязать контекст"),
    Hint("toString()", "получить строковое представление"),
    Hint("length", "количество параметров"),
    Hint("name", "имя функции")
  ]

  /** `getBooleanMethods`. */
  const BooleanMethods: seq<Hint> := [
    Hint("toString()", "преобразовать в строку"),
    Hint("valueOf()", "получить примитивное значение")
  ]

  /** The entries `getGeneralHints` always returns. */
  const BaseGeneralHints: seq<Hint> := [
    Hint("console.log()", "вывести в консоль"),
    Hint("console.error()", "вывести ошибку"),
    Hint("console.warn()", "вывести предупреждение"),
    Hint("console.info()", "вывести информацию"),
    Hint("setTimeout()", "отложить выполнение"),
    Hint("setInterval()", "повторять выполнение"),
    Hint("clearTimeout()", "отменить таймер"),
    Hint("clearInterval()", "отменить интервал"),
    Hint("JSON.stringify()", "преобразовать в JSON"),
    Hint("JSON.parse()", "парсить JSON"),
    Hint("Math.random()", "случайное число"),
    Hint("Math.floor()", "округлить вниз"),
    Hint("Math.ceil()", "округлить вверх"),
    Hint("Math.round()", "округлить"),
    Hint("Math.abs()", "абсолютное значение"),
    Hint("Math.max()", "максимальное значение"),
    Hint("Math.min()", "минимальное значение"),
    Hint("Date.now()", "текущее время в миллисекундах"),
    Hint("new Date()", "создать объект даты"),
    Hint("Array.isArray()", "проверить массив"),
    Hint("typeof", "получить тип"),
    Hint("instanceof", "проверить тип"),
    Hint("try", "обработка ошибок"),
    Hint("catch", "перехват ошибок"),
    Hint("finally", "блок завершения"),
    Hint("throw", "выбросить ошибку"),
    Hint("async", "асинхронная функция"),
    Hint("await", "ожидание промиса"),
    Hint("Promise.resolve()", "создать разрешенный промис"),
    Hint("Promise.reject()", "создать отклоненный промис")
  ]

  /** The entries `getGeneralHints` appends in TypeScript mode. */
  const TypeScriptExtras: seq<Hint> := [
    Hint("interface", "определить интерфейс"),
    Hint("type", "определить тип"),
    Hint("enum", "определить перечисление"),
    Hint("namespace", "определить пространство имен"),
    Hint("export", "экспортировать"),
    Hint("import", "импортировать"),
    Hint("extends", "наследование"),
    Hint("implements", "реализация интерфейса"),
    Hint("readonly", "только для чтения"),
    Hint("optional", "опциональное свойство"),
    Hint("union", "объединение типов"),
    Hint("intersection", "пересечение типов"),
    Hint("generic", "обобщенный тип"),
    Hint("keyof", "ключи типа"),
    Hint("typeof", "тип значения"),
    Hint("infer", "вывести тип"),
    Hint("satisfies", "удовлетворить тип"),
    Hint("as const", "константное утверждение"),
    Hint("Partial<T>", "частичный тип"),
    Hint("Required<T>", "обязательный тип"),
    Hint("Pick<T, K>", "выбрать свойства"),
    Hint("Omit<T, K>", "исключить свойства"),
    Hint("Record<K, T>", "запись типов"),
    Hint("ReturnType<T>", "тип возврата"),
    Hint("Parameters<T>", "типы параметров")
  ]

  /** `getGeneralHints`: the TypeScript list is the JavaScript list followed by the extras. */
  function GeneralHints(dialect: Dialect): (hs: seq<Hint>)
    ensures |hs| == if dialect == TypeScript then 55 else 30
    ensures hs[..30] == BaseGeneralHints
    ensures dialect == TypeScript ==> hs[30..] == TypeScriptExtras
  {
    if dialect == TypeScript then BaseGeneralHints + TypeScriptExtras else BaseGeneralHints
  }

  /** The list `showContextualHints` picks for a type tag. Every list is non-empty. */
  function CatalogFor(tag: TypeTag, dialect: Dialect): (hs: seq<Hint>)
    ensures |hs| == match tag
      case Array => 19
      case String => 22
      case Object => 12
      case Number => 13
      case Function => 6
      case Boolean => 2
      case General => if dialect == TypeScript then 55 else 30
  {
    match tag
    case Array => ArrayMethods
    case String => StringMethods
    case Object => ObjectMethods
    case Number => NumberMethods
    case Function => FunctionMethods
    case Boolean => BooleanMethods
    case General => GeneralHints(dialect)
  }

  /** The dialect only matters for the General list. */
  lemma DialectOnlyAffectsGeneral(tag: TypeTag)
    requires tag != General
    ensures CatalogFor(tag, JavaScript) == CatalogFor(tag, TypeScript)
  {
  }

  /** The TypeScript General list offers `typeof` twice: once from the shared part, once from the extras. */
  lemma TypeofTwice()
    ensures GeneralHints(TypeScript)[20].text == "typeof"
    ensures GeneralHints(TypeScript)[44].text == "typeof"
    ensures GeneralHints(TypeScript)[20] != GeneralHints(TypeScript)[44]
  {
  }

  // ---------------------------------------------------------------------------------------------
  // Filtering by the word being typed.

  /** `hint.text.toLowerCase().includes(word.toLowerCase())` */
  predicate Matches(h: Hint, word: string) {
    Contains(Lower(h.text), Lower(word))
  }

  /** `Array.prototype.filter` with `Matches`: the matching entries, in their order. */
  function Keep(hints: seq<Hint>, word: string): (r: seq<Hint>)
    ensures |r| <= |hints|
    ensures forall h | h in r :: h in hints && Matches(h, word)
    ensures forall h | h in hints && Matches(h, word) :: h in r
    decreases |hints|
  {
    if hints == [] then []
    else (if Matches(hints[0], word) then [hints[0]] else []) + Keep(hints[1..], word)
  }

  /** Filtering a concatenation filters each part and keeps them in order; with the one-entry
      case this pins `Keep` down as the order-preserving filter. */
  lemma {:induction false} KeepAppend(a: seq<Hint>, b: seq<Hint>, word: string)
    ensures Keep(a + b, word) == Keep(a, word) + Keep(b, word)
    decreases |a|
  {
    if a == [] {
      assert a + b == b;
    } else {
      assert (a + b)[1..] == a[1..] + b;
      KeepAppend(a[1..], b, word);
    }
  }

  /** Nothing matches, nothing is kept. */
  lemma {:induction false} KeepNone(hints: seq<Hint>, word: string)
    requires forall i | 0 <= i < |hints| :: !Matches(hints[i], word)
    ensures Keep(hints, word) == []
    decreases |hints|
  {
    if hints != [] {
      KeepNone(hints[1..], word);
    }
  }

  /** The one-entry case of the filter. */
  lemma KeepOne(h: Hint, word: string)
    ensures Keep([h], word) == if Matches(h, word) then [h] else []
  {
    assert [h][1..] == [];
  }

  /** The empty word occurs in every text. */
  lemma EmptyWordMatches(h: Hint)
    ensures Matches(h, "")
  {
  }

  /** The filtering step of `showContextualHints`: applied only when the current word is not empty. */
  function Filter(hints: seq<Hint>, word: string): (r: seq<Hint>)
    ensures word == "" ==> r == hints
    ensures word != "" ==> r == Keep(hints, word)
  {
    if word == "" then hints else Keep(hints, word)
  }

  /** The guard on the empty word changes nothing: filtering with it keeps every entry anyway. */
  lemma {:induction false} KeepEmptyWordIsIdentity(hints: seq<Hint>)
    ensures Keep(hints, "") == hints
    decreases |hints|
  {
    if hints != [] {
      EmptyWordMatches(hints[0]);
      KeepEmptyWordIsIdentity(hints[1..]);
    }
  }

  /** Filtering is case-insensitive: the word's case does not matter. */
  lemma {:induction false} KeepIgnoresCase(hints: seq<Hint>, word: string, word': string)
    requires Lower(word) == Lower(word')
    ensures Keep(hints, word) == Keep(hints, word')
    decreases |hints|
  {
    if hints != [] {
      KeepIgnoresCase(hints[1..], word, word');
    }
  }

  // ---------------------------------------------------------------------------------------------
  // The two classifiers.

  /** `getTypeName`: the label shown in the hint header. */
  function TypeName(tag: TypeTag): string {
    match tag
    case Array => "Массив"
    case String => "Строка"
    case Object => "Объект"
    case Number => "Число"
    case Function => "Функция"
    case Boolean => "Булево"
    case General => "Общие"
  }

  /** Distinct tags get distinct labels, so the header names the tag unambiguously. */
  lemma TypeNameInjective(a: TypeTag, b: TypeTag)
    requires TypeName(a) == TypeName(b)
    ensures a == b
  {
  }

  /** Some needle of `needles` occurs in `hint`. */
  predicate AnyIn(hint: string, needles: seq<string>)
    decreases |needles|
  {
    |needles| > 0 && (Contains(hint, needles[0]) || AnyIn(hint, needles[1..]))
  }

  /** The classes `getHintIconClass` tests for, in its order, each with its needles. */
  const IconRules: seq<(seq<string>, string)> := [
    (["console."], "console"),
    (["Math.", "Date.", "Array.", "String.", "Object.", "Number.", "Boolean."], "builtin"),
    (["function", "async", "await"], "function"),
    (["const", "let", "var"], "variable"),
    (["if", "else", "for", "while"], "control"),
    (["interface", "type", "enum"], "typescript"),
    (["class", "extends", "implements"], "class"),
    (["import", "export"], "module"),
    (["try", "catch", "throw"], "error")
  ]

  /** The class of the first rule with a needle in `hint`; `general` when none has. */
  function FirstRule(rules: seq<(seq<string>, string)>, hint: string): string
    decreases |rules|
  {
    if rules == [] then "general"
    else if AnyIn(hint, rules[0].0) then rules[0].1
    else FirstRule(rules[1..], hint)
  }

  /** `getHintIconClass`: an ordered chain of substring tests. */
  function HintIconClass(hint: string): string {
    if Contains(hint, "console.") then "console"
    else if Contains(hint, "Math.") || Contains(hint, "Date.") || Contains(hint, "Array.")
         || Contains(hint, "String.") || Contains(hint, "Object.") || Contains(hint, "Number.")
         || Contains(hint, "Boolean.") then "builtin"
    else if Contains(hint, "function") || Contains(hint, "async") || Contains(hint, "await") then "function"
    else if Contains(hint, "const") || Contains(hint, "let") || Contains(hint, "var") then "variable"
    else if Contains(hint, "if") || Contains(hint, "else") || Contains(hint, "for")
         || Contains(hint, "while") then "control"
    else if Contains(hint, "interface") || Contains(hint, "type") || Contains(hint, "enum") then "typescript"
    else if Contains(hint, "class") || Contains(hint, "extends") || Contains(hint, "implements") then "class"
    else if Contains(hint, "import") || Contains(hint, "export") then "module"
    else if Contains(hint, "try") || Contains(hint, "catch") || Contains(hint, "throw") then "error"
    else "general"
  }

  /** The chain of `getHintIconClass` is the first-match reading of `IconRules`. */
  lemma HintIconClassFollowsRules(hint: string)
    ensures HintIconClass(hint) == FirstRule(IconRules, hint)
  {
    RuleNeedles(hint);
    assert IconRules[0..] == IconRules;
    assert IconRules[9..] == [];
    RuleStep(hint, 0);
    RuleStep(hint, 1);
    RuleStep(hint, 2);
    RuleStep(hint, 3);
    RuleStep(hint, 4);
    RuleStep(hint, 5);
    RuleStep(hint, 6);
    RuleStep(hint, 7);
    RuleStep(hint, 8);
  }

  /** One step of the first-match reading. */
  lemma RuleStep(hint: string, k: nat)
    requires k < |IconRules|
    ensures FirstRule(IconRules[k..], hint)
         == if AnyIn(hint, IconRules[k].0) then IconRules[k].1 else FirstRule(IconRules[k + 1..], hint)
  {
    assert IconRules[k..][1..] == IconRules[k + 1..];
  }

  /** Each rule's needles, tested one by one. */
  lemma RuleNeedles(hint: string)
    ensures AnyIn(hint, IconRules[0].0) <==> Contains(hint, "console.")
    ensures AnyIn(hint, IconRules[1].0) <==> (Contains(hint, "Math.") || Contains(hint, "Date.")
      || Contains(hint, "Array.") || Contains(hint, "String.") || Contains(hint, "Object.")
      || Contains(hint, "Number.") || Contains(hint, "Boolean."))
    ensures AnyIn(hint, IconRules[2].0) <==> (Contains(hint, "function") || Contains(hint, "async")
      || Contains(hint, "await"))
    ensures AnyIn(hint, IconRules[3].0) <==> (Contains(hint, "const") || Contains(hint, "let")
      || Contains(hint, "var"))
    ensures AnyIn(hint, IconRules[4].0) <==> (Contains(hint, "if") || Contains(hint, "else")
      || Contains(hint, "for") || Contains(hint, "while"))
    ensures AnyIn(hint, IconRules[5].0) <==> (Contains(hint, "interface") || Contains(hint, "type")
      || Contains(hint, "enum"))
    ensures AnyIn(hint, IconRules[6].0) <==> (Contains(hint, "class") || Contains(hint, "extends")
      || Contains(hint, "implements"))
    ensures AnyIn(hint, IconRules[7].0) <==> (Contains(hint, "import") || Contains(hint, "export"))
    ensures AnyIn(hint, IconRules[8].0) <==> (Contains(hint, "try") || Contains(hint, "catch")
      || Contains(hint, "throw"))
  {
  }
}
