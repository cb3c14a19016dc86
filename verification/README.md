# java_parser_script declaration extractor, in Dafny

The program reads a list of Java source paths, parses each file with
JavaParser and, for every top-level type declaration, writes one fixed-width
descriptor line per reported declaration into a per-file record
(`JavaFileInfo`): a Class line, then the Method, Variable, Constructor and
Inner Class lines of its direct members. Every line has the shape produced
by the format `%-10s %-20s %s`: the visibility word (`public`, `private` or
`other`) left-justified in ten columns, a space, the kind word
left-justified in twenty columns, a space, and the signature or name.

This project models that extractor as pure functions over a closed syntax
tree and proves its layout, ordering, counting and record-keeping
properties.

- `opt.dfy` (`Opt`): an optional value, for parse results.
- `ast.dfy` (`Ast`): the part of the syntax tree the extractor reads.
  Type declarations carry a name, modifiers and direct members. A member is
  a method, a field statement (a list of variable names), a constructor, a
  nested class or interface, a nested type of another kind, or something
  else. `getMethods`, `getFields` and `getConstructors`, and the
  `instanceof ClassOrInterfaceDeclaration` test, are order-preserving
  filters over the members.
- `classifier.dfy` (`Classifier`): `extractVisibility`.
- `layout.dfy` (`Layout`): right padding and the three-column line format,
  with a parser for lines that inverts the format.
- `field_names.dfy` (`FieldNames`): the text of a field line. The names are
  joined with `", "`, or the text is `Unnamed` when there are none. A
  splitter inverts the join.
- `file_info.dfy` (`FileInfo`): the `JavaFileInfo` record and `addDetail`.
- `extractor.dfy` (`Extractor`): `extractAndPrintInfo`. It is written both
  as a pure function (`Extract`) and as the nested loops of the source
  (`ExtractAndPrintInfo`), and proved equal. The ordering, counting and
  one-level-walk properties are proved about the pure function.
- `runner.dfy` (`Runner`): the loop of `main` over the configured paths.
  The parser is a parameter, and a file that cannot be parsed ends the run.
- `scenarios.dfy` (`Scenarios`): a worked example, the class
  `public class Foo { private int x; public void bar() {} }`.

The format `%-10s %-20s %s` puts ten columns plus one separating space
before the kind word. For the example, the lines are therefore
`"public     Class                Foo"`: five spaces after `public` and
sixteen after `Class`.

Only the visibility and kind words go through a width (`%-10s`, `%-20s`).
They are eight ASCII constants, so counting their width in characters
agrees with Java's count in UTF-16 units. Names and signatures go through
`%s`, which has no width, and are copied unchanged.

## Model

| member | source | states |
|---|---|---|
| Classifier.ExtractVisibility | src/main/java/Main.java:106-118 | The result is Public exactly when the modifiers contain PUBLIC. It is Private exactly when they contain PRIVATE but not PUBLIC. It is Other exactly when they contain neither, which includes a declaration with no modifier list. |
| Classifier.VisibilityWord | src/main/java/Main.java:107-115 | The word is one of "public", "private" or "other". It is non-empty, shorter than the ten-column field and does not end in a space. |
| Classifier.VisibilityWordInjective | src/main/java/Main.java:107-115 | Distinct visibilities are printed as distinct words. |
| Classifier.VisibilityIgnoresOrder | src/main/java/Main.java:111-115 | `hasModifier` is a membership test. Two modifier lists with the same keywords, in any order or with repeats, classify alike. |
| Classifier.PublicWins | src/main/java/Main.java:111-115 | PUBLIC is tested first, so a list holding both PUBLIC and PRIVATE is Public. |
| Classifier.ProtectedAndPackageAreOther | src/main/java/Main.java:107-116 | Without PUBLIC and PRIVATE the result is Other: for package access, for PROTECTED, and for a declaration that is not a NodeWithModifiers. |
| FieldNames.FieldText | src/main/java/Main.java:74-77 | An empty variable list gives "Unnamed". A single variable gives its name unchanged. |
| FieldNames.FieldTextCons | src/main/java/Main.java:74-77 | For two or more names, the text is the first name, ", ", then the text of the remaining names. The left-to-right reduction can be read from the front. |
| FieldNames.SplitJoin | src/main/java/Main.java:74-77 | Take a non-empty list of names that contain no comma and no space. Splitting the field text at ", " gives back exactly that list, in declaration order, so no name is lost, added or reordered. |
| FieldNames.UnnamedOnlyForEmpty | src/main/java/Main.java:74-77 | For identifier-like names, the text is "Unnamed" only for an empty statement, or for a single variable itself named Unnamed. |
| Layout.KindWord | src/main/java/Main.java:58-98 | The five kind words are non-empty, shorter than the twenty-column field and do not end in a space. |
| Layout.PadRight | src/main/java/Main.java:58 | `%-Ns` only appends spaces. The result has length max(\|s\|, N), starts with s unchanged and is all spaces after it, so it never truncates. |
| Layout.TrimPad | src/main/java/Main.java:58 | Dropping the trailing spaces of a padded word that does not end in a space gives back the word. |
| Layout.LineLayout | src/main/java/Main.java:58 | A line is exactly 32 + \|text\| characters long. Columns 0-9 hold the padded visibility word, column 10 is a space, columns 11-30 hold the padded kind word, column 31 is a space, and the text follows unchanged. The same format is used at lines 66, 78, 87 and 98. |
| Layout.ParseFormat | src/main/java/Main.java:58 | Reading a rendered line back by its columns yields the descriptor it was rendered from. |
| Layout.FormatInjective | src/main/java/Main.java:58 | Distinct descriptors render as distinct lines. |
| FileInfo.NewFileInfo | src/main/java/Main.java:18-21 | A fresh record has the given path and no details. |
| FileInfo.AddDetail | src/main/java/Main.java:23-25 | The path is unchanged and the details grow by one. The earlier details are unchanged and the new detail is last. |
| FileInfo.AddDetailsAppends | src/main/java/Main.java:23-25 | A run of addDetail calls appends the lines in order and leaves the path unchanged. |
| Ast.OfKind | src/main/java/Main.java:63 | The filter yields no more members than it is given, all of the requested kind. |
| Ast.OfKindAppend | src/main/java/Main.java:63 | The filter keeps declaration order: filtering a concatenation is the concatenation of the filtered parts. |
| Ast.OfKindMembers | src/main/java/Main.java:63 | A member is in the result exactly when it is among the members and of the requested kind. |
| Ast.OfKindCount | src/main/java/Main.java:63 | The length of the filter is the number of members of that kind. |
| Ast.KindsPartition | src/main/java/Main.java:93-101 | The six member kinds split the member list: the six filter lengths sum to its length. |
| Extractor.DescribeAll | src/main/java/Main.java:63-69 | Each loop over a member list writes exactly one descriptor per member. DescribeAt states which descriptor each one is. |
| Extractor.DescribeAt | src/main/java/Main.java:63-69 | Descriptor i of a member list is the descriptor of member i: the loops write the members' descriptors in list order. |
| Extractor.RenderAt | src/main/java/Main.java:58-98 | Line i is descriptor i formatted with `%-10s %-20s %s`. |
| Extractor.ExtractLaidOut | src/main/java/Main.java:58-98 | Every line of a unit's output is 32 + \|text\| characters long. It holds the padded visibility word in columns 0-9, a space, the padded kind word in columns 11-30, a space, and then the text of its descriptor unchanged. |
| Extractor.KindLineAt | src/main/java/Main.java:63-101 | Within a type, the i-th Method, Variable, Constructor or Inner Class line describes the i-th member of that kind in declaration order. |
| Extractor.LineCount | src/main/java/Main.java:53-103 | A type contributes 1 + #methods + #fields + #constructors + #nested classes or interfaces lines. Equally, it contributes one line plus one per member, minus the nested types of other kinds (enums, records, annotation types) and the other members, which contribute nothing. |
| Extractor.ExtractLength | src/main/java/Main.java:53-54 | The line count of a unit is the sum of the per-type counts, and at least the number of types. |
| Extractor.KindsOrdered | src/main/java/Main.java:54-103 | A type's lines begin with its Class line, hold no other Class line, and never go back in the order Class, Method, Variable, Constructor, Inner Class. |
| Extractor.SelectOfType | src/main/java/Main.java:54-103 | The lines of one kind within a type are exactly that kind's group: the Class line, or the descriptors of the methods, fields, constructors or nested classes. |
| Extractor.SelectByKind | src/main/java/Main.java:54-103 | For each of the five kinds, the type's lines of that kind are the descriptors of the members of that kind, in declaration order. |
| Extractor.SurfaceLines | src/main/java/Main.java:93-101 | Member lists that agree except inside nested types produce the same lines of every reported kind. |
| Extractor.NotRecursive | src/main/java/Main.java:93-101 | The walk is one level deep. Changing the body of a nested class, or anything about a nested type of another kind, leaves the type's lines unchanged. |
| Extractor.GroupFlatten | src/main/java/Main.java:54-103 | Blocks that each start with their only Class line can be recovered from their concatenation by cutting before each Class line. |
| Extractor.TypesInOrder | src/main/java/Main.java:53-103 | Cutting a unit's lines before each Class line gives one block per top-level type, in source order, and each block holds exactly that type's lines. All lines of type i come before any line of type i+1. |
| Extractor.AddMemberLines | src/main/java/Main.java:63-90 | Each of the loops over methods, fields or constructors appends one rendered line per member, in order. The path is unchanged. |
| Extractor.AddInnerClassLines | src/main/java/Main.java:93-102 | The loop over all members with the instanceof test appends exactly the lines of the nested classes and interfaces, in order. |
| Extractor.AddTypeLines | src/main/java/Main.java:56-102 | One iteration of the outer loop appends exactly the rendered lines of that type. |
| Extractor.ExtractAndPrintInfo | src/main/java/Main.java:52-104 | The method appends exactly the rendered lines of the unit, type after type, to the record's details, and leaves the path unchanged. |
| Runner.Record | src/main/java/Main.java:41-45 | The record for a parsed file has that file's path, and its details are exactly the unit's lines. |
| Runner.Run | src/main/java/Main.java:39-46 | The run succeeds exactly when every path parses. It then yields one record per path, in input order, each made from that path. Otherwise it fails with the first path that does not parse. |
| Runner.RunFailsAt | src/main/java/Main.java:44 | If path i is the first that does not parse, the run fails with path i. |
| Runner.RunSucceeds | src/main/java/Main.java:39-46 | If every path parses, the result is exactly the list of their records, in input order. |
| Runner.DuplicatePaths | src/main/java/Main.java:39-46 | A path listed twice gives two equal records. |
| Runner.RunAll | src/main/java/Main.java:36-46 | The loop of `main` produces the same result as `Run`: the records in path order, or the first parse failure. |
| Scenarios.FooExample | src/main/java/Main.java:52-104 | For `public class Foo { private int x; public void bar() {} }` the lines are the Class line, then the Method line, then the Variable line, with the columns as the format string produces them. |

## Left out

- Reading the path list from `src/JSON/filePath.json` and writing `output.json` (Main.java:29-34, 49). This is file I/O through Jackson. The path list is a parameter, and the result of the run is the list of records.
- A missing `filePaths` key, or a list holding something other than strings (Main.java:34, 39). A missing key gives null, which fails at the loop of line 39 before any file is processed. A non-string element fails only when the loop reaches it, after the earlier paths have been processed. Either way the run aborts before `output.json` is written. The model takes the path list as a list of strings.
- Parsing (Main.java:44). The parser is a parameter from a path to an optional compilation unit. A missing file and a syntax error both make it return nothing. Either failure aborts the run, as the exception from `main` does, so no records are written.
- The record is added to the list before its file is parsed (Main.java:42). Since any failure aborts the whole run before output, this order is not observable and is not modelled.
- Signature text (Main.java:65, 86). `getSignature().asString()` is a library rendering. It is an opaque string in the tree.
- Console echoes (Main.java:40, 60, 68, 80, 89, 100). Line 40 prints `Processing file: ` and the path, which is never added to a record. The other five print the same lines that are added to the record.
- FieldNames.SplitJoin and FieldNames.UnnamedOnlyForEmpty are stated for names without commas or spaces, which all Java identifiers satisfy. The join itself is defined for all names.
