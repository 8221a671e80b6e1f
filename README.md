# H2 paging template and controller response helper

This project models two small parts of the template-boot-modules library in Dafny and proves what they promise.

- **H2 paging** (`h2_template.dfy`, module `H2`). `getSqlOfH2` appends ` LIMIT <first>,<pageSize>` to a query only when both the offset and the page size of the page were set. The five `findPage*` operations of `H2Template` all do the same steps: check the page and the query; when auto-counting, run the count query first and store the narrowed count in `totalCount`; run the paged data query with the same parameters; store its rows in `rawResult` (map variants) or `TResult` (bean variants); return the same page. `Page` and `H2Template` are classes whose methods update fields in place. The datasource and the inherited data-access layer (`getCountSql`, `queryNumberBy*`, `findListMapBy*`, `findListBeanBy*`) are function-valued constants of `H2Template`. Every statement sent is appended to `issued`, so the order of the queries can be stated.
- **Java integers** (`java_ints.dfy`, module `JavaInts`). The widths of `int` and `long`. The `(int)` cast from `long`, written out as two's-complement narrowing. The decimal text that string concatenation gives an `int`, together with a parser that reads it back.
- **Controller helper** (`controllers.dfy`, module `Web`). `Controllers` is a value set only by its two builders. Each `exec*` variant maps the body's outcome to a response: returned true gives `ok`, returned false gives `error`, and an exception gives `error`. The message is either the operation name plus a fixed suffix or one of three preset messages. The response `R` is reduced to an ok/error tag plus a message. Suppliers and consumers are reduced to their outcome: `BodyOutcome` and `Completion`. Java's `null` is `None`.
- `wrappers.dfy` (module `Wrappers`) holds `Option` and `Result`.

## Model

| member | source | states |
|---|---|---|
| `JavaInts.NarrowToInt` | template-modules-jpa/src/main/java/me/wuwenbin/modules/jpa/posterity/h2/H2Template.java:34-37 | the `(int) count` cast keeps a count that fits in an int, and otherwise differs from it by a multiple of 2^32 (low 32 bits, two's complement) |
| `JavaInts.NatToDecimal` | template-modules-jpa/src/main/java/me/wuwenbin/modules/jpa/posterity/h2/H2Template.java:25 | the decimal text of a natural is a canonical numeral: non-empty, all digits, and either "0" or starting with a non-zero digit, and it starts with '0' only for zero |
| `JavaInts.IntToDecimal` | template-modules-jpa/src/main/java/me/wuwenbin/modules/jpa/posterity/h2/H2Template.java:25 | the text an int becomes in concatenation is a canonical numeral ("0" or no leading zero), preceded by a minus sign exactly when the int is negative |
| `JavaInts.NatToDecimalReadsBack` | template-modules-jpa/src/main/java/me/wuwenbin/modules/jpa/posterity/h2/H2Template.java:25 | reading the digits of a natural back gives the natural |
| `JavaInts.IntToDecimalRoundTrip` | template-modules-jpa/src/main/java/me/wuwenbin/modules/jpa/posterity/h2/H2Template.java:25 | parsing the text of any int gives the same int, so the offset and page size written into the query are recoverable |
| `JavaInts.CanonicalDigitsAreDecimal` | template-modules-jpa/src/main/java/me/wuwenbin/modules/jpa/posterity/h2/H2Template.java:25 | a numeral without superfluous leading zero is exactly the decimal text of its value |
| `JavaInts.ParseDecimalExact` | template-modules-jpa/src/main/java/me/wuwenbin/modules/jpa/posterity/h2/H2Template.java:25 | a text that parses to an int is exactly the text Java writes for that int, so parsing and printing are inverse in both directions |
| `H2.HasText` | template-modules-jpa/src/main/java/me/wuwenbin/modules/jpa/posterity/h2/H2Template.java:33 | the query passes the text check exactly when some character is not Java whitespace |
| `H2.IndexOf` | template-modules-jpa/src/main/java/me/wuwenbin/modules/jpa/posterity/h2/H2Template.java:25 | finds the first comma of the appended clause, which separates the offset from the page size |
| `H2.LimitClauseReadsBack` | template-modules-jpa/src/main/java/me/wuwenbin/modules/jpa/posterity/h2/H2Template.java:25 | the text ` LIMIT ` + a + `,` + b, with a and b any ints, parses back to exactly (a, b) |
| `H2.LimitClause` | template-modules-jpa/src/main/java/me/wuwenbin/modules/jpa/posterity/h2/H2Template.java:25 | the appended clause starts with ` LIMIT `, parses back to exactly the offset and page size it was built from, and is the only text that parses back to them, so it is exactly ` LIMIT <first>,<pageSize>` as Java writes it |
| `H2.ParseLimitClauseExact` | template-modules-jpa/src/main/java/me/wuwenbin/modules/jpa/posterity/h2/H2Template.java:25 | any text the clause parser accepts is exactly ` LIMIT ` + the decimal text of the offset + `,` + the decimal text of the page size |
| `H2.SqlOfH2` | template-modules-jpa/src/main/java/me/wuwenbin/modules/jpa/posterity/h2/H2Template.java:22-28 | the original query is always a prefix of the rewritten one. The query is unchanged exactly when the offset or the page size is unset. When both are set, the appended text parses back to exactly that offset and page size and is the only text that does, so the result is exactly `sql + " LIMIT " + first + "," + pageSize` |
| `H2.SqlOfH2Injective` | template-modules-jpa/src/main/java/me/wuwenbin/modules/jpa/posterity/h2/H2Template.java:24-25 | two paged rewrites of the same query are equal only when their offsets and page sizes are equal |
| `H2.PlanOrder` | template-modules-jpa/src/main/java/me/wuwenbin/modules/jpa/posterity/h2/H2Template.java:35-39 | a served call sends two statements when auto-counting and one otherwise. A count query can only come first, and only when auto-counting; it runs over `getCountSql(sql)`. The last statement is the data query over `getSqlOfH2(sql, page)`. Every statement carries the caller's parameters |
| `H2.H2Template.CountIfAsked` | template-modules-jpa/src/main/java/me/wuwenbin/modules/jpa/posterity/h2/H2Template.java:34-38 | when auto-counting, exactly one count query over `getCountSql(sql)` is sent and `totalCount` becomes its narrowed result; otherwise nothing is sent and `totalCount` keeps its value |
| `H2.H2Template.FetchRows` | template-modules-jpa/src/main/java/me/wuwenbin/modules/jpa/posterity/h2/H2Template.java:39-40 | exactly one data query over `getSqlOfH2(sql, page)` is sent with the caller's parameters; its rows land in the slot of the requested shape and the other slot keeps its value |
| `H2.H2Template.Serve` | template-modules-jpa/src/main/java/me/wuwenbin/modules/jpa/posterity/h2/H2Template.java:34-41 | after the checks pass, the planned statements are sent in order. Offset, page size and `autoCount` cannot change. `totalCount` and the result slot are set as the two phases say |
| `H2.H2Template.FindPage` | template-modules-jpa/src/main/java/me/wuwenbin/modules/jpa/posterity/h2/H2Template.java:31-42 | a null page fails with the page message, then text-free SQL fails with the SQL message; a failed check sends no statement and leaves the page unchanged. Otherwise the planned statements are sent in order. `totalCount` becomes the narrowed count, or keeps its value when not auto-counting. Only the result slot of the requested shape is written. Offset, page size and `autoCount` are unchanged, and the same page is returned |
| `H2.H2Template.FindPageListMapByArray` | template-modules-jpa/src/main/java/me/wuwenbin/modules/jpa/posterity/h2/H2Template.java:30-42 | `FindPage`'s contract for positional parameters with the rows stored in `rawResult` |
| `H2.H2Template.FindPageListMapByMap` | template-modules-jpa/src/main/java/me/wuwenbin/modules/jpa/posterity/h2/H2Template.java:44-56 | `FindPage`'s contract for named parameters with the rows stored in `rawResult` |
| `H2.H2Template.FindPageListBeanByArray` | template-modules-jpa/src/main/java/me/wuwenbin/modules/jpa/posterity/h2/H2Template.java:58-70 | `FindPage`'s contract for positional parameters with the beans stored in `TResult` |
| `H2.H2Template.FindPageListBeanByMap` | template-modules-jpa/src/main/java/me/wuwenbin/modules/jpa/posterity/h2/H2Template.java:73-85 | `FindPage`'s contract for named parameters with the beans stored in `TResult` |
| `H2.H2Template.FindPageListBeanByBean` | template-modules-jpa/src/main/java/me/wuwenbin/modules/jpa/posterity/h2/H2Template.java:87-99 | `FindPage`'s contract for a bean parameter with the beans stored in `TResult` |
| `Web.Controllers.SuccessMessage` | template-modules-utils/src/main/java/me/wuwenbin/modules/utils/web/Controllers.java:91 | with a name, the message is the name followed by `成功！`; without one, it is the preset success message |
| `Web.Controllers.FailureMessage` | template-modules-utils/src/main/java/me/wuwenbin/modules/utils/web/Controllers.java:94 | with a name, the message is the name followed by `失败！`; without one, it is the preset error message |
| `Web.Controllers.ExceptionMessage` | template-modules-utils/src/main/java/me/wuwenbin/modules/utils/web/Controllers.java:98 | with a name, the message is the name, then `异常，原因：`, then the exception's message; without one, it is the preset exception message |
| `Web.Controllers.Exec` | template-modules-utils/src/main/java/me/wuwenbin/modules/utils/web/Controllers.java:87-101 | the response is ok exactly when the body returned true. Its message is the success, failure or exception message of the branch taken |
| `Web.Controllers.ExecWith` | template-modules-utils/src/main/java/me/wuwenbin/modules/utils/web/Controllers.java:109-126 | the result is the plain exec's response with exactly one post-operator applied: the one for the branch taken |
| `Web.Controllers.ExecGuarded` | template-modules-utils/src/main/java/me/wuwenbin/modules/utils/web/Controllers.java:53-59 | when the guard holds, the result is the plain exec of the body; otherwise it is the else response |
| `Web.Controllers.ExecGuardedWith` | template-modules-utils/src/main/java/me/wuwenbin/modules/utils/web/Controllers.java:72-79 | when the guard holds, the result is the 4-argument exec; otherwise it is the else response |
| `Web.Controllers.ExecWrapSuccess` | template-modules-utils/src/main/java/me/wuwenbin/modules/utils/web/Controllers.java:135-137 | only a true result is post-processed; every other outcome gives the plain exec's response |
| `Web.Controllers.ExecWrapFailure` | template-modules-utils/src/main/java/me/wuwenbin/modules/utils/web/Controllers.java:146-148 | only a false result is post-processed; every other outcome gives the plain exec's response |
| `Web.Controllers.ExecWrapException` | template-modules-utils/src/main/java/me/wuwenbin/modules/utils/web/Controllers.java:157-159 | only an exception is post-processed; every other outcome gives the plain exec's response |
| `Web.Controllers.ExecWrapSuccessFailure` | template-modules-utils/src/main/java/me/wuwenbin/modules/utils/web/Controllers.java:169-171 | true and false results get their own operators; an exception gives the plain exec's response |
| `Web.Controllers.ExecWrapSuccessException` | template-modules-utils/src/main/java/me/wuwenbin/modules/utils/web/Controllers.java:181-183 | true results and exceptions get their own operators; a false result gives the plain exec's response |
| `Web.Controllers.ExecWrapFailureException` | template-modules-utils/src/main/java/me/wuwenbin/modules/utils/web/Controllers.java:193-195 | false results and exceptions get their own operators; a true result gives the plain exec's response |
| `Web.Controllers.ExecLightWith` | template-modules-utils/src/main/java/me/wuwenbin/modules/utils/web/Controllers.java:218-229 | a consumer that completes gives the ok response of a true result; one that throws gives the error response for its exception. Then the matching post-operator is applied |
| `Web.Controllers.ExecLight` | template-modules-utils/src/main/java/me/wuwenbin/modules/utils/web/Controllers.java:206-208 | the response is ok exactly when the consumer completes, with the success or exception message |
| `Web.Builder` | template-modules-utils/src/main/java/me/wuwenbin/modules/utils/web/Controllers.java:27-39 | `builder(operationName)` sets the name and leaves all three preset messages null |
| `Web.BuilderWithMessages` | template-modules-utils/src/main/java/me/wuwenbin/modules/utils/web/Controllers.java:31-43 | `builder(success, error, exception)` sets the three messages and leaves the name null |
| `Web.ExecWithIdentity` | template-modules-utils/src/main/java/me/wuwenbin/modules/utils/web/Controllers.java:109-126 | the 4-argument exec with identity operators equals the plain exec for every outcome |
| `Web.GuardRefusedIgnoresBody` | template-modules-utils/src/main/java/me/wuwenbin/modules/utils/web/Controllers.java:53-59 | when the guard fails, the body's outcome has no effect on the response |
| `Web.ExecLightIsExec` | template-modules-utils/src/main/java/me/wuwenbin/modules/utils/web/Controllers.java:206-229 | `execLight` equals exec of a body that returns true when the consumer completes and throws the consumer's exception otherwise |
| `Web.NamedBuilderResponses` | template-modules-utils/src/main/java/me/wuwenbin/modules/utils/web/Controllers.java:87-101 | with `builder(name)`, the three responses are exactly `ok(name+"成功！")`, `error(name+"失败！")` and `error(name+"异常，原因："+cause)` |
| `Web.NamedMessagesDistinct` | template-modules-utils/src/main/java/me/wuwenbin/modules/utils/web/Controllers.java:91-98 | with `builder(name)`, the success, failure and exception messages are pairwise different |
| `Web.PresetBuilderResponses` | template-modules-utils/src/main/java/me/wuwenbin/modules/utils/web/Controllers.java:87-101 | with the three-message builder, the responses carry exactly the preset messages, and the exception's cause is not shown |

## Left out

- The datasource, SQL execution, JDBC row mapping and the `Class<T>` argument are not modelled. `getCountSql` and `queryNumberBy*`/`findListMapBy*`/`findListBeanBy*` come from the inherited data-access layer, which is not part of this model. They appear as given functions, and no count-query text is assumed.
- Database failures are not modelled: the given functions always answer. Because of that, "a failing count query stops the call before the data query" is not modelled either.
- `Page` is not part of this model. Its fields are taken as plain fields: an unset offset or page size is `None`, and the setters only assign. Its constructor starts with `totalCount` 0 and empty results. Java's own defaults for these fields are not known here.
- A null `sql` is not modelled separately. Spring's `hasText` rejects null the same way it rejects empty or blank text.
- Spring's `Assert` throws `IllegalArgumentException`; here that is a `Failure` carrying the same message.
- Null `e.getMessage()` is not modelled. In Java, `concat(null)` throws in that case.
- Exceptions that are not `Exception`s (`Error`s) pass through `exec` in Java. They are not modelled.
- A null `Boolean` from a supplier is not modelled. In Java, unboxing it throws.
- `Web.Controllers.ExecWith`: the post-operators are total functions here. In Java `successOperate` and `failureOperate` run inside the `try`, so an exception they throw would be caught and the exception branch taken; `exceptionOperate` runs in the `catch` block, so an exception it throws leaves `exec`. Neither path is modelled.
- `Web.Controllers.ExecLightWith`: the same holds for `tryResultOperate`, which runs inside the `try`, and for `exceptionOperate`, which runs in the `catch` block and whose exception leaves `execLight`.
- `Web.Controllers.ExecGuarded`, `Web.Controllers.ExecGuardedWith`: the guard and the else response are plain values here. In Java `preOperate.get()` and `elseSupplier.get()` run outside any `try`, so an exception they throw leaves `exec` instead of becoming an error response. That path is not modelled.
- The response class `R` is reduced to its ok/error tag and message. The extra entries that post-operators may put into it are not modelled. Post-operators are arbitrary functions from `R` to `R`.
- A zero page size and a negative offset are not rejected: the H2 template checks neither, and the model follows it.
- The text of the count query is whatever `getCountSql` returns; that code is not part of this model.
- Other pagination dialects (row-number wrapping), datasource routing, the dynamic proxy and self-invocation are not part of this model.
