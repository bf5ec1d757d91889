# Flask todo application tier, modelled in Dafny

This project models the logic of the Flask application tier of a three-tier
todo application (`application_tier_flask/app.py`). It does not model the
routing, the MySQL driver or the S3 client around that logic. The model has
four parts:

- **Filter query** (`get_todos`). The optional `status`, `priority` and
  `search` query arguments become a SELECT text plus a positional argument
  list. `FilterQuery.BuildSelect` accumulates both exactly as the handler
  does. It is proved against `SelectText`, which takes only the three
  truthiness bits, so no argument value can reach the text. It is also
  proved against `SelectParams`.
- **Statement builders** (`add_todo`, `update_todo`). A JSON object is
  filtered against the allow-list `task, description, status, due_date,
  priority`, and only keys present with a non-`null` value are kept.
  - `Mutation.CollectInsert` and `Mutation.CollectAssignments` are the two
    loops over that allow-list.
  - `Mutation.BuildInsert` and `Mutation.BuildUpdate` add the statement
    texts. The update also appends the row id last.
  - Every text has exactly one `%s` marker per value.
- **Record service** (`get_todo`, `add_todo`, `update_todo`,
  `delete_todo`). The `todos` table is the class `Todos.TodoTable`: a map
  from id to row, plus the next AUTO_INCREMENT value. Each handler is a
  method that makes the handler's checks in the handler's order and
  replies with the same status codes and messages. It changes the map the
  way the statements it built would change the table.
  - `Todos.Merge` is the intended effect of a body on a row.
  - `Todos.AssignColumnsIsMerge` proves that executing the built column and
    value lists has exactly that effect.
- **Upload** (`upload_file`). The two request checks, the object key (a
  token, then the extension that `os.path.splitext` gives), and the public
  URL. The token stands for `str(uuid4())` and is a parameter. The store's
  failure is also a parameter: the message of its exception, if any.

`Http` holds the shared values: optional arguments, JSON scalars, request
bodies and status codes. `SqlText` counts `%s` markers and models
`', '.join`.

Where the code and its intended behaviour differ, the model follows the code:

- `{"task": null}` passes the key-presence check (line 144). Its `task` is
  then dropped (line 162), and the INSERT lacks the NOT NULL column `task`,
  which has no default. MySQL in strict mode rejects that statement, so the
  model answers 500 and leaves the table unchanged. It does not answer 400.
- `request.json` being `None` on `add_todo` makes `'task' in data` raise,
  which is answered with 500.
- A falsy update body (`None` or `{}`) is answered with 400 before the
  existence check, so an unknown id with an empty body gets 400, not 404.
- `status` and `priority` values are not validated by the code, which
  passes any supplied value to the store. The model stores it. MySQL's
  rejection of a value outside the ENUM, which the handler would answer
  with 500, is not modelled.
- An empty query argument is treated like a missing one, because the
  filters are truthiness tests.

## Model

| member | source | states |
|---|---|---|
| FilterQuery.BuildSelect | application_tier_flask/app.py:99-115 | The text is `SelectText` of the three truthiness bits and the arguments are `SelectParams`. The number of `%s` markers in the text equals the number of arguments. |
| FilterQuery.LikePattern | application_tier_flask/app.py:111 | The search pattern is the search text wrapped in one `%` on each side. |
| FilterQuery.SelectTextCount | application_tier_flask/app.py:99-115 | The text has one marker per equality filter, two for the search filter, and no others. |
| FilterQuery.PlaceholdersMatchParams | application_tier_flask/app.py:103-112 | For all arguments, the marker count of the text equals the length of the argument list. |
| FilterQuery.NoFilters | application_tier_flask/app.py:99-115 | With every filter absent or empty, the text is exactly `SELECT * FROM todos WHERE 1=1 ORDER BY created_at DESC` and there are no arguments. |
| FilterQuery.UnfilteredText | application_tier_flask/app.py:99-115 | With no filter, the text is the WHERE head directly followed by the ordering, spelled out. |
| FilterQuery.AlwaysOrdered | application_tier_flask/app.py:99-115 | For any filters, the text starts with the `WHERE 1=1` head and ends with ` ORDER BY created_at DESC`. |
| FilterQuery.ParamOrder | application_tier_flask/app.py:103-112 | Arguments come in the order status, priority, then the search pattern twice. Without search, every argument is the status or the priority value. |
| Mutation.Kept | application_tier_flask/app.py:161-162 | A name is kept iff it is among the scanned names and the body supplies it non-null. |
| Mutation.Columns | application_tier_flask/app.py:153-162 | A column is used iff it is allow-listed and supplied with a non-null value. |
| Mutation.KeptInOrder | application_tier_flask/app.py:161-165 | Kept names appear at strictly increasing positions of the scanned names. |
| Mutation.ColumnsInAllowListOrder | application_tier_flask/app.py:153-165 | Columns follow the order `task, description, status, due_date, priority` strictly, so none repeats. |
| Mutation.KeptIgnoresOtherKeys | application_tier_flask/app.py:161-162 | A key outside the scanned names does not change what is kept. |
| Mutation.UnknownKeysIgnored | application_tier_flask/app.py:153-162 | Adding a key outside the allow-list, with any value, leaves the columns unchanged. |
| Mutation.IdNeverAColumn | application_tier_flask/app.py:203-213 | `id` is never a SET or INSERT column. |
| Mutation.CollectInsert | application_tier_flask/app.py:161-165 | The loop yields the kept columns; one value per column, equal to the body's value for it; and one `%s` per column. |
| Mutation.InsertTextCount | application_tier_flask/app.py:167-170 | An INSERT over `%`-free column names has exactly one marker per column. |
| Mutation.BuildInsert | application_tier_flask/app.py:148-170 | Fields are exactly the body's columns in allow-list order, with `values[k]` equal to the body's value of `fields[k]`. The three lists have equal length, and the INSERT has one marker per value. |
| Mutation.AssignedColumnOf | application_tier_flask/app.py:213 | The column can be read back from a built `column = %s` assignment. |
| Mutation.UpdateTextCount | application_tier_flask/app.py:220-224 | An UPDATE over single-marker assignments has one marker per assignment plus one for the id. |
| Mutation.CollectAssignments | application_tier_flask/app.py:211-214 | The loop yields one `column = %s` per kept column, in order, and the body's value for each. |
| Mutation.AssignmentsCount | application_tier_flask/app.py:219-224 | The UPDATE built from a body's assignments has one marker per SET value plus one for the id. |
| Mutation.BuildUpdate | application_tier_flask/app.py:199-224 | No assignments iff the body has no usable column. Otherwise the SET values are in allow-list order, the id is the last value, and the marker count equals the value count. |
| Todos.WithColumn | application_tier_flask/app.py:63-74 | Setting one column changes that column only. |
| Todos.Merge | application_tier_flask/app.py:211-228 | Each allow-listed column takes the supplied value when the body supplies it non-null, and keeps its old value otherwise. |
| Todos.AssignAt | application_tier_flask/app.py:167-173 | After executing a column list, a column holds the body's value if the list names it, and its old value otherwise. |
| Todos.AssignColumnsIsMerge | application_tier_flask/app.py:161-173 | Executing the built columns with their values is exactly the merge of the body into the row. |
| Todos.InsertDefaults | application_tier_flask/app.py:66-70 | A new row takes each supplied column from the body, `pending` and `medium` for missing status and priority, and NULL otherwise. |
| Todos.MergeNothing | application_tier_flask/app.py:216-217 | A body without usable columns would leave the row unchanged. |
| Todos.MergeIdempotent | application_tier_flask/app.py:211-228 | Applying the same update twice is the same as applying it once. |
| Todos.MergeKeepsTask | application_tier_flask/app.py:212 | An update never clears `task`, because a null value is skipped. |
| Todos.TaskOnlyUpdate | application_tier_flask/app.py:211-224 | An update of `task` alone changes `task` alone. |
| Todos.TodoTable.constructor | application_tier_flask/app.py:63-74 | The table starts empty, with AUTO_INCREMENT at 1. |
| Todos.TodoTable.GetTodo | application_tier_flask/app.py:129-133 | Returns 200 with the row when the id exists, and 404 `Todo not found` otherwise. The table is not changed. |
| Todos.TodoTable.AddTodo | application_tier_flask/app.py:142-180 | No body gives 500. A missing `task` key gives 400 `Missing required fields`. A null `task` gives 500. Otherwise the merged defaults are stored under a fresh id and returned with 201. Only a successful insert changes the table. |
| Todos.TodoTable.UpdateTodo | application_tier_flask/app.py:189-233 | A falsy body gives 400 before the existence check. An absent id gives 404. No usable column gives 400. Otherwise exactly that row becomes its merge with the body and is returned with 200. The validity invariant is kept. |
| Todos.TodoTable.DeleteTodo | application_tier_flask/app.py:243-249 | An absent id gives 404 and changes nothing. Otherwise exactly that id is removed, every other row is unchanged, and the reply is 200 `Todo deleted successfully`. |
| Upload.LastIndexOf | application_tier_flask/app.py:274 | The index of the last occurrence of the character, or -1 when there is none. |
| Upload.ExtensionStart | application_tier_flask/app.py:274 | The cut point is a dot, and no dot or separator follows it. |
| Upload.SplitExt | application_tier_flask/app.py:274 | Root and extension concatenate back to the path. |
| Upload.Extension | application_tier_flask/app.py:274 | The extension is empty or one dot followed by characters that are neither dots nor separators. |
| Upload.ExtensionOfNamedFile | application_tier_flask/app.py:274 | `dir/stem.ext` with a stem that is not all dots splits into `dir/stem` and `.ext`. |
| Upload.NoDotNoExtension | application_tier_flask/app.py:274 | A name without a dot has an empty extension. |
| Upload.DotfileHasNoExtension | application_tier_flask/app.py:274 | Leading dots of the last component do not start an extension, whether the name is bare (`.bashrc`) or follows a directory (`dir/.bashrc`). |
| Upload.KeyKeepsExtension | application_tier_flask/app.py:274 | The key has the same extension as the uploaded file's name. |
| Upload.KeyHasNoSlash | application_tier_flask/app.py:274 | The client's file name cannot put a path separator into the key. |
| Upload.UrlDeterminesKey | application_tier_flask/app.py:284 | The key is what follows the bucket's URL prefix, so different keys give different URLs. |
| Upload.UploadFile | application_tier_flask/app.py:262-293 | A missing `file` part or empty name gives 400 with no store call. Otherwise the object goes to the bucket under `token + extension`, and the reply is 201 with `https://<bucket>.s3.amazonaws.com/<key>`, or 500 with the store's message. |

## Left out

- Flask routing, `jsonify`, CORS and logging are plumbing. Replies are modelled as a status code plus a payload value.
- The MySQL connection and `init_database` are I/O. Only the column defaults and the NOT NULL `task` from its table definition are used.
- SELECT execution is left out, because it is engine semantics: LIKE matching (a `%` or `_` in the search text acts as a wildcard there), collation, the ORDER BY order and the list of rows returned.
- The `created_at` and `updated_at` timestamps are server clock values.
- The ENUM restriction on `status` and `priority` is enforced by MySQL, not by this code, and MySQL type coercion of stored values is also left out.
- The shared global cursor and the check-then-act race are concurrency.
- Database failures other than the missing `task` are left out; they are the database's behaviour. They would be 500 with the exception text, and `ExceptionJson` stands for that text.
- Non-object JSON bodies, and floats, arrays and objects as values, are not in the `Json` type.
- The INT width of `id` and AUTO_INCREMENT gaps after failed inserts: ids are unbounded and increase by one per stored row.
- The S3 and DynamoDB clients are foreign calls. An upload either succeeds or fails with a message, and `S3_BUCKET` is a parameter that is always set.
- The health endpoint, the Node server and the React front end have no logic of their own to model.
- The `field_mapping` type values (`str`) are never used by the code.
- Todos.TodoTable.GetTodo: the reply carries the stored row, not the database's JSON rendering of dates and timestamps.
- Upload.KeyKeepsExtension: holds for tokens without dots and separators, which `str(uuid4())` always is. Other tokens are not covered.
